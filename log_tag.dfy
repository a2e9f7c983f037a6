/**
 * The `[Flags]` enum `LogTag` over a 32-bit integer: `None`, ten single-bit flags
 * and `All` (every bit set).
 */
module LogTag {
  import Wrappers

  const None: bv32 := 0
  const UI: bv32 := 0x1
  const Actions: bv32 := 0x2
  const Effects: bv32 := 0x4
  const Creatures: bv32 := 0x8
  const Players: bv32 := 0x10
  const Cards: bv32 := 0x20
  const Combat: bv32 := 0x40
  const Initialization: bv32 := 0x80
  const Network: bv32 := 0x100
  const Economy: bv32 := 0x200
  const All: bv32 := 0xFFFF_FFFF

  /** An enum member: its value and its name. */
  datatype Member = Member(flag: bv32, name: string)

  /** `Enum.GetValues(typeof(LogTag))`: every member, in ascending unsigned order of value. */
  const Members: seq<Member> := [
    Member(None, "None"),
    Member(UI, "UI"),
    Member(Actions, "Actions"),
    Member(Effects, "Effects"),
    Member(Creatures, "Creatures"),
    Member(Players, "Players"),
    Member(Cards, "Cards"),
    Member(Combat, "Combat"),
    Member(Initialization, "Initialization"),
    Member(Network, "Network"),
    Member(Economy, "Economy"),
    Member(All, "All")
  ]

  ghost predicate DistinctNames(members: seq<Member>) {
    forall i, j :: 0 <= i < j < |members| ==> members[i].name != members[j].name
  }

  /** The value of the first member with the name, if any. */
  function ParseIn(members: seq<Member>, name: string): (r: Wrappers.Option<bv32>)
    ensures r.None? <==> forall i :: 0 <= i < |members| ==> members[i].name != name
    ensures r.Some? ==> exists i :: 0 <= i < |members| && members[i].name == name && members[i].flag == r.value
  {
    if members == [] then Wrappers.None
    else if members[0].name == name then Wrappers.Some(members[0].flag)
    else
      var r := ParseIn(members[1..], name);
      assert forall i :: 0 < i < |members| ==> members[i] == members[1..][i - 1];
      r
  }

  /**
   * `Enum.TryParse<LogTag>(name)` for a member name (case-sensitive): `ToString` and
   * `TryParse` are inverse on the enum's members, and any other name does not parse.
   */
  function Parse(name: string): (r: Wrappers.Option<bv32>)
    ensures r.None? <==> forall i :: 0 <= i < |Members| ==> Members[i].name != name
    ensures forall i :: 0 <= i < |Members| && Members[i].name == name ==> r == Wrappers.Some(Members[i].flag)
  {
    MembersHaveDistinctNames();
    EveryMemberParses(Members);
    ParseIn(Members, name)
  }

  /** In a table with distinct names, every member's name parses to its own value. */
  lemma {:induction false} ParseInMember(members: seq<Member>, i: nat)
    requires DistinctNames(members) && i < |members|
    ensures ParseIn(members, members[i].name) == Wrappers.Some(members[i].flag)
  {
    if i > 0 {
      assert members[0].name != members[i].name;
      ParseInMember(members[1..], i - 1);
    }
  }

  /** `ParseInMember` for all members at once. */
  lemma EveryMemberParses(members: seq<Member>)
    requires DistinctNames(members)
    ensures forall i :: 0 <= i < |members| ==> ParseIn(members, members[i].name) == Wrappers.Some(members[i].flag)
  {
    forall i | 0 <= i < |members|
      ensures ParseIn(members, members[i].name) == Wrappers.Some(members[i].flag)
    {
      ParseInMember(members, i);
    }
  }

  lemma MembersHaveDistinctNames()
    ensures DistinctNames(Members)
  {
  }

  /** No member's name contains `|`, the tag-list separator. */
  lemma NamesSeparatorFree()
    ensures forall i :: 0 <= i < |Members| ==> '|' !in Members[i].name
  {
  }

  /** The members between `None` and `All` are the single flags. */
  lemma SingleFlag(i: nat)
    requires 0 < i < |Members| - 1
    ensures Members[i].flag != None && Members[i].flag != All
  {
  }

}
