/** Trader names: the lookup `QuestDataService.TraderIdToName`. */
module Traders {
  import opened Wrappers
  import opened Text

  /** Trader ids tested by TraderIdToName. */
  const RagmanId := "5ac3b934156ae10c4430e83c"
  const PraporId := "54cb50c76803fa8b248b4571"
  const TherapistId := "54cb57776803fa99248b456e"
  const FenceId := "579dc571d53a0658a154fbec"
  const SkierId := "58330581ace78e27b8b10cee"
  const PeacekeeperId := "5935c25fb3acc3127c3d8cd9"
  const MechanicId := "5a7c2eca46aef81a7ca2145d"
  const JaegerId := "5c0647fdd443bc2504c2d371"
  const PraporSecondId := "638f541a29ffd1183d187f57"

  /** The if-chain of TraderIdToName as data: (trader id, display name), in
      the order the chain tests them. */
  const TraderTable: seq<(string, string)> := [
    (RagmanId, "Ragman"),
    (PraporId, "Prapor"),
    (TherapistId, "Therapist"),
    (FenceId, "Fence"),
    (SkierId, "Skier"),
    (PeacekeeperId, "Peacekeeper"),
    (MechanicId, "Mechanic"),
    (JaegerId, "Jaeger"),
    (PraporSecondId, "Prapor"),
    (PraporId, "Lighthouse Keeper ")
  ]

  /** The trader's display name: the first id of the chain that equals
      `traderId` ignoring case decides; an unknown id is passed to the game's
      localisation (`localized`). The name is one of the eight traders' names,
      never "Lighthouse Keeper ", unless it is the localisation of the id. */
  function TraderIdToName(traderId: string, localized: string -> string): (name: string)
    ensures name == localized(traderId) ||
            name in {"Ragman", "Prapor", "Therapist", "Fence", "Skier", "Peacekeeper", "Mechanic", "Jaeger"}
  {
    if EqualsIgnoreCase(traderId, RagmanId) then "Ragman"
    else if EqualsIgnoreCase(traderId, PraporId) then "Prapor"
    else if EqualsIgnoreCase(traderId, TherapistId) then "Therapist"
    else if EqualsIgnoreCase(traderId, FenceId) then "Fence"
    else if EqualsIgnoreCase(traderId, SkierId) then "Skier"
    else if EqualsIgnoreCase(traderId, PeacekeeperId) then "Peacekeeper"
    else if EqualsIgnoreCase(traderId, MechanicId) then "Mechanic"
    else if EqualsIgnoreCase(traderId, JaegerId) then "Jaeger"
    else if EqualsIgnoreCase(traderId, PraporSecondId) then "Prapor"
    else if EqualsIgnoreCase(traderId, PraporId) then "Lighthouse Keeper "
    else localized(traderId)
  }

  /** The index of the first entry of `table` whose id equals `id` ignoring case. */
  function FirstMatch(table: seq<(string, string)>, id: string): (k: Option<nat>)
    ensures k.Some? ==>
      k.value < |table| && EqualsIgnoreCase(id, table[k.value].0) &&
      forall j :: 0 <= j < k.value ==> !EqualsIgnoreCase(id, table[j].0)
    ensures k.None? ==> forall j :: 0 <= j < |table| ==> !EqualsIgnoreCase(id, table[j].0)
  {
    if table == [] then None
    else if EqualsIgnoreCase(id, table[0].0) then Some(0)
    else match FirstMatch(table[1..], id)
      case None => None
      case Some(k) => Some(k + 1)
  }

  /** First-match lookup in a table, with a fallback for ids it does not hold. */
  function Lookup(table: seq<(string, string)>, id: string, fallback: string -> string): string
  {
    match FirstMatch(table, id)
    case Some(k) => table[k].1
    case None => fallback(id)
  }

  /** The first match is the entry that matches with no earlier entry matching. */
  lemma FirstMatchAt(table: seq<(string, string)>, id: string, j: nat)
    requires j < |table| && EqualsIgnoreCase(id, table[j].0)
    requires forall i :: 0 <= i < j ==> !EqualsIgnoreCase(id, table[i].0)
    ensures FirstMatch(table, id) == Some(j)
  {
  }

  /** One step of the lookup: test the first entry, else look in the rest. */
  lemma LookupStep(table: seq<(string, string)>, k: nat, id: string, fallback: string -> string)
    requires k < |table|
    ensures Lookup(table[k..], id, fallback) ==
      if EqualsIgnoreCase(id, table[k].0) then table[k].1 else Lookup(table[k + 1..], id, fallback)
  {
    assert table[k..][1..] == table[k + 1..];
  }

  /** The second half of the chain is the lookup in the last five entries. */
  lemma LookupLastFive(traderId: string, localized: string -> string)
    ensures Lookup(TraderTable[5..], traderId, localized) ==
      if EqualsIgnoreCase(traderId, PeacekeeperId) then "Peacekeeper"
      else if EqualsIgnoreCase(traderId, MechanicId) then "Mechanic"
      else if EqualsIgnoreCase(traderId, JaegerId) then "Jaeger"
      else if EqualsIgnoreCase(traderId, PraporSecondId) then "Prapor"
      else if EqualsIgnoreCase(traderId, PraporId) then "Lighthouse Keeper "
      else localized(traderId)
  {
    var t := TraderTable;
    assert t[10..] == [];
    LookupStep(t, 5, traderId, localized);
    LookupStep(t, 6, traderId, localized);
    LookupStep(t, 7, traderId, localized);
    LookupStep(t, 8, traderId, localized);
    LookupStep(t, 9, traderId, localized);
  }

  /** TraderIdToName is the first-match lookup of the id in TraderTable. */
  lemma TraderIdToNameIsFirstMatch(traderId: string, localized: string -> string)
    ensures TraderIdToName(traderId, localized) == Lookup(TraderTable, traderId, localized)
  {
    var t := TraderTable;
    assert t[0..] == t;
    LookupStep(t, 0, traderId, localized);
    LookupStep(t, 1, traderId, localized);
    LookupStep(t, 2, traderId, localized);
    LookupStep(t, 3, traderId, localized);
    LookupStep(t, 4, traderId, localized);
    LookupLastFive(traderId, localized);
  }

  /** An entry whose id equals that of an earlier entry, ignoring case, is never
      the first match, whatever the id looked up. */
  lemma ShadowedEntryNeverMatches(table: seq<(string, string)>, i: nat, j: nat, id: string)
    requires i < j < |table| && EqualsIgnoreCase(table[i].0, table[j].0)
    ensures FirstMatch(table, id) != Some(j)
  {
    if FirstMatch(table, id) == Some(j) {
      EqualsIgnoreCaseSymmetric(table[i].0, table[j].0);
      EqualsIgnoreCaseTransitive(id, table[j].0, table[i].0);
      assert false;
    }
  }

  /** The "Lighthouse Keeper " branch of TraderIdToName is dead: that name comes
      back only if the localisation of the id itself yields it. */
  lemma LighthouseKeeperUnreachable(traderId: string, localized: string -> string)
    ensures FirstMatch(TraderTable, traderId) != Some(9)
    ensures TraderIdToName(traderId, localized) == "Lighthouse Keeper " ==>
      localized(traderId) == "Lighthouse Keeper "
  {
    TraderIdToNameIsFirstMatch(traderId, localized);
    ShadowedEntryNeverMatches(TraderTable, 1, 9, traderId);
    var k := FirstMatch(TraderTable, traderId);
    if k.Some? {
      assert k.value < 9;
      assert TraderTable[k.value].1 != "Lighthouse Keeper ";
    }
  }

  /** The ids of the first nine entries differ pairwise, ignoring case. */
  lemma TraderIdsDistinct()
    ensures forall i, j :: 0 <= i < j < 9 ==> !EqualsIgnoreCase(TraderTable[i].0, TraderTable[j].0)
  {
    var t := TraderTable;
    forall i, j | 0 <= i < j < 9 ensures !EqualsIgnoreCase(t[i].0, t[j].0) {
      if i == 0 && j == 6 {
        DifferAt(t[i].0, t[j].0, 2);
      } else if i == 1 && j == 2 {
        DifferAt(t[i].0, t[j].0, 5);
      } else if j == 8 {
        DifferAt(t[i].0, t[j].0, 0);
      } else {
        DifferAt(t[i].0, t[j].0, 1);
      }
    }
  }

  /** Each of the first nine ids, in any letter case, yields the name paired with it. */
  lemma KnownTraderName(traderId: string, localized: string -> string, j: nat)
    requires j < 9 && EqualsIgnoreCase(traderId, TraderTable[j].0)
    ensures TraderIdToName(traderId, localized) == TraderTable[j].1
  {
    var t := TraderTable;
    TraderIdsDistinct();
    forall i | 0 <= i < j ensures !EqualsIgnoreCase(traderId, t[i].0) {
      if EqualsIgnoreCase(traderId, t[i].0) {
        EqualsIgnoreCaseSymmetric(traderId, t[i].0);
        EqualsIgnoreCaseTransitive(t[i].0, traderId, t[j].0);
        assert false;
      }
    }
    FirstMatchAt(t, traderId, j);
    TraderIdToNameIsFirstMatch(traderId, localized);
  }

  /** Both Prapor ids, in any letter case, name Prapor. */
  lemma PraporIds(traderId: string, localized: string -> string)
    requires EqualsIgnoreCase(traderId, PraporId) ||
             EqualsIgnoreCase(traderId, PraporSecondId)
    ensures TraderIdToName(traderId, localized) == "Prapor"
  {
    if EqualsIgnoreCase(traderId, PraporId) {
      KnownTraderName(traderId, localized, 1);
    } else {
      KnownTraderName(traderId, localized, 8);
    }
  }

  /** An id that matches no entry of the table falls back to the localisation. */
  lemma UnknownTraderIsLocalized(traderId: string, localized: string -> string)
    requires forall j :: 0 <= j < |TraderTable| ==> !EqualsIgnoreCase(traderId, TraderTable[j].0)
    ensures TraderIdToName(traderId, localized) == localized(traderId)
  {
    TraderIdToNameIsFirstMatch(traderId, localized);
  }
}
