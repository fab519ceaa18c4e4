/** The resume form's list editors. The form state is one `ResumeForm` value;
    each handler reads a list out of it and writes a new list back, leaving
    every other field alone. Removal never takes a list below one entry. */
module FormEditor {
  import opened Wrappers
  import opened JsValues
  import opened Seqs
  import opened Schema

  /** The entry `addExperience` appends: empty strings, not current. */
  const BlankExperience: Experience := Experience("", "", "", Some(""), false, "")
  /** The entry `addEducation` appends. */
  const BlankEducation: Education := Education("", "", "", Some(""))
  /** The entry `addSkill` appends. */
  const BlankSkill: string := ""

  /** The three lists the editors manage each hold at least one entry. */
  predicate ListsNonEmpty(f: ResumeForm) {
    |f.experience| >= 1 && |f.education| >= 1 && |f.skills| >= 1
  }

  /** `if (s.length > 1) s = s.filter((_, i) => i !== index)`. */
  function RemoveIfMany<T>(s: seq<T>, index: int): (r: seq<T>)
    ensures |s| >= 1 ==> |r| >= 1
    ensures |s| > 1 && 0 <= index < |s| ==> r == s[..index] + s[index + 1..]
    ensures |s| <= 1 || !(0 <= index < |s|) ==> r == s
  {
    if |s| > 1 then RemoveIndex(s, index) else s
  }

  /** Removing the entry just added restores the list, unless it was the only one. */
  lemma RemoveUndoesAppend<T>(s: seq<T>, x: T)
    requires |s| >= 1
    ensures RemoveIfMany(s + [x], |s|) == s
  {
    assert (s + [x])[..|s|] == s;
  }

  /** On a one-entry list every removal is refused, whatever the index. */
  lemma RemoveKeepsLastEntry<T>(s: seq<T>, index: int)
    requires |s| == 1
    ensures RemoveIfMany(s, index) == s
  { }

  /** `skills.filter((skill) => skill.trim())`: the skills shown as badges. */
  function NonBlankSkills(skills: seq<string>): (r: seq<string>)
    ensures |r| <= |skills|
    ensures forall i :: 0 <= i < |r| ==> !IsBlank(r[i]) && r[i] in skills
    ensures forall i :: 0 <= i < |skills| ==> (skills[i] in r <==> !IsBlank(skills[i]))
  {
    var p := (s: string) => Trim(s) != "";
    var r := Filter(p, skills);
    assert forall s :: p(s) <==> !IsBlank(s) by {
      forall s ensures p(s) <==> !IsBlank(s) {
        TrimEmptyIffBlank(s);
      }
    }
    r
  }

  /** The badges of two lists side by side are the badges of each, in order. */
  lemma NonBlankSkillsAppend(a: seq<string>, b: seq<string>)
    ensures NonBlankSkills(a + b) == NonBlankSkills(a) + NonBlankSkills(b)
  {
    FilterAppend((s: string) => Trim(s) != "", a, b);
  }

  /** With no blank skill every skill is shown, in order. */
  lemma AllFilledSkillsShown(skills: seq<string>)
    requires forall i :: 0 <= i < |skills| ==> !IsBlank(skills[i])
    ensures NonBlankSkills(skills) == skills
  {
    var p := (s: string) => Trim(s) != "";
    forall i | 0 <= i < |skills| ensures p(skills[i]) {
      TrimEmptyIffBlank(skills[i]);
    }
    FilterAll(p, skills);
  }

  /** The form state of `useForm<ResumeForm>`, edited through `getValues`/`setValue`. */
  class Form {
    var values: ResumeForm

    constructor (initial: ResumeForm)
      ensures values == initial
    {
      values := initial;
    }

    /** `form.reset(next)`. */
    method Reset(next: ResumeForm)
      modifies this
      ensures values == next
    {
      values := next;
    }

    method AddExperience()
      modifies this
      ensures values == old(values).(experience := old(values).experience + [BlankExperience])
      ensures ListsNonEmpty(old(values)) ==> ListsNonEmpty(values)
    {
      var current := values.experience;
      values := values.(experience := current + [BlankExperience]);
    }

    method RemoveExperience(index: int)
      modifies this
      ensures values == old(values).(experience := RemoveIfMany(old(values).experience, index))
      ensures ListsNonEmpty(old(values)) ==> ListsNonEmpty(values)
    {
      var current := values.experience;
      if |current| > 1 {
        values := values.(experience := RemoveIndex(current, index));
      }
    }

    method AddEducation()
      modifies this
      ensures values == old(values).(education := old(values).education + [BlankEducation])
      ensures ListsNonEmpty(old(values)) ==> ListsNonEmpty(values)
    {
      var current := values.education;
      values := values.(education := current + [BlankEducation]);
    }

    method RemoveEducation(index: int)
      modifies this
      ensures values == old(values).(education := RemoveIfMany(old(values).education, index))
      ensures ListsNonEmpty(old(values)) ==> ListsNonEmpty(values)
    {
      var current := values.education;
      if |current| > 1 {
        values := values.(education := RemoveIndex(current, index));
      }
    }

    method AddSkill()
      modifies this
      ensures values == old(values).(skills := old(values).skills + [BlankSkill])
      ensures ListsNonEmpty(old(values)) ==> ListsNonEmpty(values)
    {
      var current := values.skills;
      values := values.(skills := current + [BlankSkill]);
    }

    method RemoveSkill(index: int)
      modifies this
      ensures values == old(values).(skills := RemoveIfMany(old(values).skills, index))
      ensures ListsNonEmpty(old(values)) ==> ListsNonEmpty(values)
    {
      var current := values.skills;
      if |current| > 1 {
        values := values.(skills := RemoveIndex(current, index));
      }
    }

    /** Copies the skill list, assigns one slot of the copy and writes it back. */
    method UpdateSkill(index: int, value: string)
      requires 0 <= index < |values.skills|
      modifies this
      ensures |values.skills| == |old(values).skills| && values.skills[index] == value
      ensures forall j :: 0 <= j < |values.skills| && j != index ==> values.skills[j] == old(values).skills[j]
      ensures values == old(values).(skills := values.skills)
    {
      var current := values.skills;
      var copy := new string[|current|](j requires 0 <= j < |current| => current[j]);
      copy[index] := value;
      values := values.(skills := copy[..]);
    }

    /** The badge list under the skill inputs. */
    function Badges(): (r: seq<string>)
      reads this
      ensures forall i :: 0 <= i < |values.skills| ==> (values.skills[i] in r <==> !IsBlank(values.skills[i]))
    {
      NonBlankSkills(values.skills)
    }
  }
}
