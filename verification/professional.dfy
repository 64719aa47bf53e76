/**
 * The professional-details step: the skills and interests tag lists (with
 * their pending text inputs) and the experience and education entry lists.
 * Every handler hands the wizard a patch naming exactly one list key, which the
 * wizard merges into the draft.
 */
module Professional {
  import opened Base
  import opened Draft
  import opened Text
  import opened Lists

  /** The fields of an experience entry the view edits. */
  datatype ExperienceField = Title | Company | StartDate | EndDate | Description

  function ExperienceGet(e: Experience, f: ExperienceField): string {
    match f
    case Title => e.title
    case Company => e.company
    case StartDate => e.startDate
    case EndDate => e.endDate
    case Description => e.description
  }

  /** `{ ...e, [f]: v }`: field `f` becomes `v`, the other fields stay. */
  function ExperienceSet(e: Experience, f: ExperienceField, v: string): (r: Experience)
    ensures forall g :: ExperienceGet(r, g) == (if g == f then v else ExperienceGet(e, g))
  {
    match f
    case Title => e.(title := v)
    case Company => e.(company := v)
    case StartDate => e.(startDate := v)
    case EndDate => e.(endDate := v)
    case Description => e.(description := v)
  }

  /** The entry `addExperience` appends. */
  function NewExperience(): (e: Experience)
    ensures forall f :: ExperienceGet(e, f) == ""
  {
    Experience("", "", "", "", "")
  }

  /** The fields of an education entry the view edits. */
  datatype EducationField = Degree | Institution | Year

  function EducationGet(e: Education, f: EducationField): string {
    match f
    case Degree => e.degree
    case Institution => e.institution
    case Year => e.year
  }

  /** `{ ...e, [f]: v }`: field `f` becomes `v`, the other fields stay. */
  function EducationSet(e: Education, f: EducationField, v: string): (r: Education)
    ensures forall g :: EducationGet(r, g) == (if g == f then v else EducationGet(e, g))
  {
    match f
    case Degree => e.(degree := v)
    case Institution => e.(institution := v)
    case Year => e.(year := v)
  }

  /** The entry `addEducation` appends. */
  function NewEducation(): (e: Education)
    ensures forall f :: EducationGet(e, f) == ""
  {
    Education("", "", "")
  }

  /** Patches naming a single list key. */
  function SkillsPatch(s: seq<string>): (p: Patch)
    ensures Names(p) == {Skills} && PatchGet(p, Skills) == Some(TextList(s))
  {
    EmptyPatch.(skills := Some(s))
  }

  function InterestsPatch(s: seq<string>): (p: Patch)
    ensures Names(p) == {Interests} && PatchGet(p, Interests) == Some(TextList(s))
  {
    EmptyPatch.(interests := Some(s))
  }

  function ExperiencesPatch(s: seq<Experience>): (p: Patch)
    ensures Names(p) == {Experiences} && PatchGet(p, Experiences) == Some(ExperienceList(s))
  {
    EmptyPatch.(experiences := Some(s))
  }

  function EducationPatch(s: seq<Education>): (p: Patch)
    ensures Names(p) == {EducationList} && PatchGet(p, EducationList) == Some(EducationEntries(s))
  {
    EmptyPatch.(education := Some(s))
  }

  /**
   * The shared logic of `addSkill` / `addInterest`: blank input (empty or
   * white space only) adds nothing; otherwise the trimmed input is appended.
   */
  function AddTrimmed(list: seq<string>, input: string): (r: Option<seq<string>>)
    ensures r.None? <==> AllSpace(input)
    ensures r.Some? ==> |r.value| == |list| + 1 && r.value[..|list|] == list
    ensures r.Some? ==> r.value[|list|] == Trim(input) && r.value[|list|] != ""
  {
    TrimEmptyIffAllSpace(input);
    var t := Trim(input);
    if t != "" then Some(Append(list, t)) else None
  }

  /** The text typed into the two "add" inputs of the view. */
  datatype Inputs = Inputs(newSkill: string, newInterest: string)

  /** What an "add" handler produces: the patch it sends, if any, and the inputs afterwards. */
  datatype Added = Added(patch: Option<Patch>, inputs: Inputs)

  /** `addSkill`: appends the trimmed pending skill and clears the input; blank input does nothing at all. */
  function AddSkill(d: Profile, inputs: Inputs): (r: Added)
    ensures AllSpace(inputs.newSkill) ==> r.patch.None? && r.inputs == inputs
    ensures !AllSpace(inputs.newSkill) ==>
              && r.patch.Some? && Names(r.patch.value) == {Skills}
              && r.patch.value.skills == Some(d.skills + [Trim(inputs.newSkill)])
              && r.inputs == inputs.(newSkill := "")
  {
    match AddTrimmed(d.skills, inputs.newSkill)
    case Some(s) => Added(Some(SkillsPatch(s)), inputs.(newSkill := ""))
    case None => Added(None, inputs)
  }

  /** `removeSkill(i)`: the skills with position `i` filtered out. */
  function RemoveSkill(d: Profile, i: int): (p: Patch)
    ensures Names(p) == {Skills} && p.skills == Some(RemoveAt(d.skills, i))
  {
    SkillsPatch(RemoveAt(d.skills, i))
  }

  /** `addInterest`: appends the trimmed pending interest and clears the input; blank input does nothing at all. */
  function AddInterest(d: Profile, inputs: Inputs): (r: Added)
    ensures AllSpace(inputs.newInterest) ==> r.patch.None? && r.inputs == inputs
    ensures !AllSpace(inputs.newInterest) ==>
              && r.patch.Some? && Names(r.patch.value) == {Interests}
              && r.patch.value.interests == Some(d.interests + [Trim(inputs.newInterest)])
              && r.inputs == inputs.(newInterest := "")
  {
    match AddTrimmed(d.interests, inputs.newInterest)
    case Some(s) => Added(Some(InterestsPatch(s)), inputs.(newInterest := ""))
    case None => Added(None, inputs)
  }

  /** `removeInterest(i)`: the interests with position `i` filtered out. */
  function RemoveInterest(d: Profile, i: int): (p: Patch)
    ensures Names(p) == {Interests} && p.interests == Some(RemoveAt(d.interests, i))
  {
    InterestsPatch(RemoveAt(d.interests, i))
  }

  /** `addExperience`: one more entry, all fields empty, after the existing ones. */
  function AddExperience(d: Profile): (p: Patch)
    ensures Names(p) == {Experiences} && p.experiences.Some?
    ensures var s, n := p.experiences.value, |d.experiences|;
            |s| == n + 1 && s[..n] == d.experiences && forall f :: ExperienceGet(s[n], f) == ""
  {
    ExperiencesPatch(Append(d.experiences, NewExperience()))
  }

  /** `updateExperience(i, f, v)`: entry `i` gets `v` in field `f`; nothing else changes. */
  function UpdateExperience(d: Profile, i: int, f: ExperienceField, v: string): (p: Patch)
    requires 0 <= i < |d.experiences|
    ensures Names(p) == {Experiences} && p.experiences.Some?
    ensures var s, prev := p.experiences.value, d.experiences;
            && |s| == |prev|
            && ExperienceGet(s[i], f) == v
            && (forall g :: g != f ==> ExperienceGet(s[i], g) == ExperienceGet(prev[i], g))
            && (forall j :: 0 <= j < |s| && j != i ==> s[j] == prev[j])
  {
    ExperiencesPatch(d.experiences[i := ExperienceSet(d.experiences[i], f, v)])
  }

  /** `removeExperience(i)`: the entries with position `i` filtered out. */
  function RemoveExperience(d: Profile, i: int): (p: Patch)
    ensures Names(p) == {Experiences} && p.experiences == Some(RemoveAt(d.experiences, i))
  {
    ExperiencesPatch(RemoveAt(d.experiences, i))
  }

  /** `addEducation`: one more entry, all fields empty, after the existing ones. */
  function AddEducation(d: Profile): (p: Patch)
    ensures Names(p) == {EducationList} && p.education.Some?
    ensures var s, n := p.education.value, |d.education|;
            |s| == n + 1 && s[..n] == d.education && forall f :: EducationGet(s[n], f) == ""
  {
    EducationPatch(Append(d.education, NewEducation()))
  }

  /** `updateEducation(i, f, v)`: entry `i` gets `v` in field `f`; nothing else changes. */
  function UpdateEducation(d: Profile, i: int, f: EducationField, v: string): (p: Patch)
    requires 0 <= i < |d.education|
    ensures Names(p) == {EducationList} && p.education.Some?
    ensures var s, prev := p.education.value, d.education;
            && |s| == |prev|
            && EducationGet(s[i], f) == v
            && (forall g :: g != f ==> EducationGet(s[i], g) == EducationGet(prev[i], g))
            && (forall j :: 0 <= j < |s| && j != i ==> s[j] == prev[j])
  {
    EducationPatch(d.education[i := EducationSet(d.education[i], f, v)])
  }

  /** `removeEducation(i)`: the entries with position `i` filtered out. */
  function RemoveEducation(d: Profile, i: int): (p: Patch)
    ensures Names(p) == {EducationList} && p.education == Some(RemoveAt(d.education, i))
  {
    EducationPatch(RemoveAt(d.education, i))
  }

  /** A user event on the professional-details step. */
  datatype Event =
    | NewSkillTyped(text: string) | AddSkillButton | RemoveSkillButton(index: int)
    | NewInterestTyped(text: string) | AddInterestButton | RemoveInterestButton(index: int)
    | AddExperienceButton | ExperienceTyped(entry: int, experienceField: ExperienceField, value: string) | RemoveExperienceButton(index: int)
    | AddEducationButton | EducationTyped(entry: int, educationField: EducationField, value: string) | RemoveEducationButton(index: int)

  /** The view only offers edits of entries it displays. */
  predicate Allowed(d: Profile, e: Event) {
    match e
    case ExperienceTyped(i, _, _) => 0 <= i < |d.experiences|
    case EducationTyped(i, _, _) => 0 <= i < |d.education|
    case _ => true
  }

  /** The one draft key an event may change, if any. */
  function Target(e: Event): Option<Key> {
    match e
    case NewSkillTyped(_) => None
    case NewInterestTyped(_) => None
    case AddSkillButton => Some(Skills)
    case RemoveSkillButton(_) => Some(Skills)
    case AddInterestButton => Some(Interests)
    case RemoveInterestButton(_) => Some(Interests)
    case AddExperienceButton => Some(Experiences)
    case ExperienceTyped(_, _, _) => Some(Experiences)
    case RemoveExperienceButton(_) => Some(Experiences)
    case AddEducationButton => Some(EducationList)
    case EducationTyped(_, _, _) => Some(EducationList)
    case RemoveEducationButton(_) => Some(EducationList)
  }

  /** The draft (after `updateData`) and the view's inputs after one event. */
  datatype Edit = Edit(draft: Profile, inputs: Inputs)

  /** The patch an event sends to `updateData`, and the inputs afterwards. */
  function Emit(d: Profile, inputs: Inputs, e: Event): Added
    requires Allowed(d, e)
  {
    match e
    case NewSkillTyped(t) => Added(None, inputs.(newSkill := t))
    case NewInterestTyped(t) => Added(None, inputs.(newInterest := t))
    case AddSkillButton => AddSkill(d, inputs)
    case AddInterestButton => AddInterest(d, inputs)
    case RemoveSkillButton(i) => Added(Some(RemoveSkill(d, i)), inputs)
    case RemoveInterestButton(i) => Added(Some(RemoveInterest(d, i)), inputs)
    case AddExperienceButton => Added(Some(AddExperience(d)), inputs)
    case ExperienceTyped(i, f, v) => Added(Some(UpdateExperience(d, i, f, v)), inputs)
    case RemoveExperienceButton(i) => Added(Some(RemoveExperience(d, i)), inputs)
    case AddEducationButton => Added(Some(AddEducation(d)), inputs)
    case EducationTyped(i, f, v) => Added(Some(UpdateEducation(d, i, f, v)), inputs)
    case RemoveEducationButton(i) => Added(Some(RemoveEducation(d, i)), inputs)
  }

  /** A patch, when one is sent, names exactly the event's target key. */
  lemma EmitNamesTarget(d: Profile, inputs: Inputs, e: Event)
    requires Allowed(d, e)
    ensures var r := Emit(d, inputs, e);
            r.patch.Some? ==> Target(e).Some? && Names(r.patch.value) == {Target(e).value}
  {
    match e
    case NewSkillTyped(_) =>
    case NewInterestTyped(_) =>
    case AddSkillButton =>
    case AddInterestButton =>
    case RemoveSkillButton(i) =>
    case RemoveInterestButton(i) =>
    case AddExperienceButton =>
    case ExperienceTyped(i, f, v) =>
    case RemoveExperienceButton(i) =>
    case AddEducationButton =>
    case EducationTyped(i, f, v) =>
    case RemoveEducationButton(i) =>
  }

  /** One event, with its patch (if any) merged into the draft by the wizard. */
  function Handle(d: Profile, inputs: Inputs, e: Event): (r: Edit)
    requires Allowed(d, e)
  {
    var added := Emit(d, inputs, e);
    Edit(if added.patch.Some? then Merge(d, added.patch.value) else d, added.inputs)
  }

  /**
   * Every event changes at most the one list key it targets: the other three
   * lists and every scalar field of the draft keep their values.
   */
  lemma HandleFrame(d: Profile, inputs: Inputs, e: Event)
    requires Allowed(d, e)
    ensures forall k :: Some(k) != Target(e) ==> Get(Handle(d, inputs, e).draft, k) == Get(d, k)
  {
    var added := Emit(d, inputs, e);
    EmitNamesTarget(d, inputs, e);
    if added.patch.Some? {
      MergeFrame(d, added.patch.value);
    }
  }

  /** Adding a skill: the old skills in order, then the trimmed input; blank input changes nothing. */
  lemma AddSkillLaw(d: Profile, inputs: Inputs)
    ensures var r := Handle(d, inputs, AddSkillButton);
            if AllSpace(inputs.newSkill) then r == Edit(d, inputs)
            else r.draft.skills == d.skills + [Trim(inputs.newSkill)] && r.inputs == inputs.(newSkill := "")
  {
    var added := AddSkill(d, inputs);
    if added.patch.Some? {
      MergeFrame(d, added.patch.value);
      assert Get(Merge(d, added.patch.value), Skills) == TextList(d.skills + [Trim(inputs.newSkill)]);
    }
  }

  /** Adding an interest: the old interests in order, then the trimmed input; skills untouched. */
  lemma AddInterestLaw(d: Profile, inputs: Inputs)
    ensures var r := Handle(d, inputs, AddInterestButton);
            && r.draft.skills == d.skills
            && if AllSpace(inputs.newInterest) then r == Edit(d, inputs)
               else r.draft.interests == d.interests + [Trim(inputs.newInterest)] && r.inputs == inputs.(newInterest := "")
  {
    var added := AddInterest(d, inputs);
    HandleFrame(d, inputs, AddInterestButton);
    assert Get(Handle(d, inputs, AddInterestButton).draft, Skills) == Get(d, Skills);
    if added.patch.Some? {
      MergeFrame(d, added.patch.value);
      assert Get(Merge(d, added.patch.value), Interests) == TextList(d.interests + [Trim(inputs.newInterest)]);
    }
  }

  /** Removing skill `i` deletes that position and keeps the rest in order; an index outside the list changes nothing. */
  lemma RemoveSkillLaw(d: Profile, inputs: Inputs, i: int)
    ensures var s := Handle(d, inputs, RemoveSkillButton(i)).draft.skills;
            && (0 <= i < |d.skills| ==> s == d.skills[..i] + d.skills[i + 1..])
            && (!(0 <= i < |d.skills|) ==> s == d.skills)
  {
    var p := RemoveSkill(d, i);
    MergeFrame(d, p);
    assert Get(Merge(d, p), Skills) == TextList(RemoveAt(d.skills, i));
  }

  /** Removing interest `i` deletes that position, keeps the rest in order, and leaves the skills alone. */
  lemma RemoveInterestLaw(d: Profile, inputs: Inputs, i: int)
    ensures var r := Handle(d, inputs, RemoveInterestButton(i)).draft;
            && (0 <= i < |d.interests| ==> r.interests == d.interests[..i] + d.interests[i + 1..])
            && (!(0 <= i < |d.interests|) ==> r.interests == d.interests)
            && r.skills == d.skills
  {
    var p := RemoveInterest(d, i);
    MergeFrame(d, p);
    assert Get(Merge(d, p), Interests) == TextList(RemoveAt(d.interests, i));
    assert Get(Merge(d, p), Skills) == Get(d, Skills);
  }

  /** Removing experience `i` deletes that entry and keeps the others in order. */
  lemma RemoveExperienceLaw(d: Profile, inputs: Inputs, i: int)
    requires 0 <= i < |d.experiences|
    ensures var s := Handle(d, inputs, RemoveExperienceButton(i)).draft.experiences;
            s == d.experiences[..i] + d.experiences[i + 1..]
  {
    var p := RemoveExperience(d, i);
    MergeFrame(d, p);
    assert Get(Merge(d, p), Experiences) == ExperienceList(RemoveAt(d.experiences, i));
  }

  /** Removing education entry `i` deletes that entry and keeps the others in order. */
  lemma RemoveEducationLaw(d: Profile, inputs: Inputs, i: int)
    requires 0 <= i < |d.education|
    ensures var s := Handle(d, inputs, RemoveEducationButton(i)).draft.education;
            s == d.education[..i] + d.education[i + 1..]
  {
    var p := RemoveEducation(d, i);
    MergeFrame(d, p);
    assert Get(Merge(d, p), EducationList) == EducationEntries(RemoveAt(d.education, i));
  }

  /** Adding an experience and then removing the new last entry gives back the original list. */
  lemma AddThenRemoveExperience(d: Profile, inputs: Inputs)
    ensures var added := Handle(d, inputs, AddExperienceButton);
            Handle(added.draft, inputs, RemoveExperienceButton(|d.experiences|)).draft.experiences == d.experiences
  {
    var p := AddExperience(d);
    MergeFrame(d, p);
    var added := Merge(d, p);
    assert Get(added, Experiences) == ExperienceList(p.experiences.value);
    RemoveExperienceLaw(added, inputs, |d.experiences|);
    assert added.experiences[..|d.experiences|] == d.experiences;
  }
}
