/**
 * The list-valued fields of the admin drafts: the technology tags of a
 * project or experience (added when trimmed, non-empty and new; removed by
 * value) and the achievements of an experience (added when trimmed and
 * non-empty; removed by position).
 */
module DraftLists {
  import opened Text
  import opened Seqs

  /** The add button (or Enter) takes the input: its trimmed text is non-empty and not yet listed. */
  predicate AcceptsTechnology(techs: seq<string>, input: string) {
    Trim(input) != "" && Trim(input) !in techs
  }

  /** `[...technologies, input.trim()]` when accepted, otherwise the list as it was. */
  function AddTechnology(techs: seq<string>, input: string): (r: seq<string>)
    ensures AcceptsTechnology(techs, input) ==> r == techs + [Trim(input)]
    ensures !AcceptsTechnology(techs, input) ==> r == techs
  {
    if AcceptsTechnology(techs, input) then techs + [Trim(input)] else techs
  }

  /** The test `t !== tech` of the remove filter. */
  function Differs(tech: string): string -> bool {
    t => t != tech
  }

  /** `technologies.filter(t => t !== tech)`. */
  function RemoveTechnology(techs: seq<string>, tech: string): seq<string> {
    Filter(techs, Differs(tech))
  }

  /** The achievement add button (or Enter) takes any input that is not blank, repeats included. */
  predicate AcceptsAchievement(input: string) {
    Trim(input) != ""
  }

  /** `[...achievements, input.trim()]` when accepted, otherwise the list as it was. */
  function AddAchievement(achievements: seq<string>, input: string): (r: seq<string>)
    ensures AcceptsAchievement(input) ==> r == achievements + [Trim(input)]
    ensures !AcceptsAchievement(input) ==> r == achievements
  {
    if AcceptsAchievement(input) then achievements + [Trim(input)] else achievements
  }

  /** `achievements.filter((_, i) => i !== index)`. */
  function RemoveAchievement(achievements: seq<string>, index: int): seq<string> {
    RemoveAt(achievements, index)
  }

  /** A tag list without repeats keeps having none, whatever is typed. */
  lemma AddTechnologyKeepsDistinct(techs: seq<string>, input: string)
    requires Distinct(techs)
    ensures Distinct(AddTechnology(techs, input))
  {
    if AcceptsTechnology(techs, input) {
      var r := techs + [Trim(input)];
      forall i, j | 0 <= i < j < |r| ensures r[i] != r[j] {
        if j == |techs| {
          assert r[i] == techs[i];
        }
      }
    }
  }

  /** Adding the same text a second time changes nothing. */
  lemma AddTechnologyIdempotent(techs: seq<string>, input: string)
    ensures AddTechnology(AddTechnology(techs, input), input) == AddTechnology(techs, input)
  {
    if AcceptsTechnology(techs, input) {
      assert Trim(input) in techs + [Trim(input)];
    }
  }

  /**
   * Removing a tag deletes every copy of it and keeps every other tag, as
   * often as it occurred and in the original order.
   */
  lemma RemoveTechnologySpec(techs: seq<string>, tech: string)
    ensures tech !in RemoveTechnology(techs, tech)
    ensures forall t :: t != tech ==> multiset(RemoveTechnology(techs, tech))[t] == multiset(techs)[t]
    ensures IsSubsequence(RemoveTechnology(techs, tech), techs)
  {
    FilterMembers(techs, Differs(tech));
    FilterIsSubsequence(techs, Differs(tech));
    forall t | t != tech
      ensures multiset(RemoveTechnology(techs, tech))[t] == multiset(techs)[t]
    {
      FilterCounts(techs, Differs(tech), t);
    }
  }

  /** Removing a tag never introduces a repeat. */
  lemma RemoveTechnologyKeepsDistinct(techs: seq<string>, tech: string)
    requires Distinct(techs)
    ensures Distinct(RemoveTechnology(techs, tech))
  {
    FilterKeepsDistinct(techs, Differs(tech));
  }

  /** A tag that was just added can be removed again, giving back the list as it was. */
  lemma AddThenRemoveTechnology(techs: seq<string>, input: string)
    requires AcceptsTechnology(techs, input)
    ensures RemoveTechnology(AddTechnology(techs, input), Trim(input)) == techs
  {
    var t := Trim(input);
    FilterAppend(techs, [t], Differs(t));
    FilterKeepsAll(techs, Differs(t));
    assert Filter([t], Differs(t)) == [];
  }

  /** "React" added twice to an empty list gives one "React"; "React" then "Go" keeps both, in that order. */
  lemma TechnologyExamples(react: string, go: string)
    requires react == "React" && go == "Go"
    ensures AddTechnology(AddTechnology([], react), react) == [react]
    ensures AddTechnology(AddTechnology([], react), go) == [react, go]
  {
    TrimKeepsUnpadded(react);
    TrimKeepsUnpadded(go);
    assert |go| != |react|;
    AddTwice(react, react);
    AddTwice(react, go);
  }

  /** Adding two tags that are already trimmed to an empty list: a repeat is dropped, a new tag is appended. */
  lemma AddTwice(first: string, second: string)
    requires first != "" && Trim(first) == first && Trim(second) == second && second != ""
    ensures AddTechnology(AddTechnology([], first), second)
      == if second == first then [first] else [first, second]
  {
    assert AddTechnology([], first) == [first];
  }

  /** Achievements may repeat: adding the same text twice lists it twice. */
  lemma AchievementsMayRepeat(achievements: seq<string>, input: string)
    requires AcceptsAchievement(input)
    ensures AddAchievement(AddAchievement(achievements, input), input)
      == achievements + [Trim(input), Trim(input)]
  {
  }

  /**
   * Removing achievement `index` drops exactly that entry and keeps the
   * others in order; a position outside the list changes nothing.
   */
  lemma RemoveAchievementSpec(achievements: seq<string>, index: int)
    ensures RemoveAchievement(achievements, index)
      == if 0 <= index < |achievements| then achievements[..index] + achievements[index + 1..] else achievements
  {
    RemoveAtSpec(achievements, index);
  }

  /** The entry just added is the last one; removing that position gives back the list as it was. */
  lemma AddThenRemoveAchievement(achievements: seq<string>, input: string)
    requires AcceptsAchievement(input)
    ensures RemoveAchievement(AddAchievement(achievements, input), |achievements|) == achievements
  {
    var r := achievements + [Trim(input)];
    RemoveAtSpec(r, |achievements|);
    assert r[..|achievements|] == achievements;
  }
}
