/** Quest marker collection: `QuestDataService.ReloadQuestData`.

    The game's objects (quests, their templates and conditions, zone triggers,
    loot) are records here. What the source reaches by reflection arrives as
    parameters, and the two helpers it calls but this model does not define
    (the localisation of a key and the zone-trigger search) are function-typed
    parameters, so nothing is assumed about them. */
module Quests {
  import opened Wrappers
  import opened Seqs
  import opened Text
  import opened Traders

  // ---------------------------------------------------------------------------
  // Data model

  /** A single-precision coordinate, carried as its bit pattern: the model only
      copies coordinates, it never computes with them. */
  type Single = bv32

  /** A world-space position (`UnityEngine.Vector3`). */
  datatype Vector3 = Vector3(x: Single, y: Single, z: Single)

  /** The position stored in a marker. */
  datatype QuestLocation = QuestLocation(x: Single, y: Single, z: Single)

  /** `EQuestStatus`. */
  datatype QuestStatus =
    | Locked | AvailableForStart | Started | AvailableForFinish | Success
    | Fail | FailRestartable | MarkedAsFailed | Expired | AvailableAfter

  /** The two trigger classes the zone search is asked for. */
  datatype TriggerKind = PlaceItem | Experience

  /** A trigger volume of the level, with the zone id it belongs to. */
  datatype TriggerWithId = TriggerWithId(id: string, kind: TriggerKind, position: Vector3)

  /** A loose item lying in the level. */
  datatype LootItem = LootItem(templateId: string, questItem: bool, position: Vector3)

  /** A quest condition. The first four kinds are handled at the top level of a
      quest; VisitPlace and InZone only as sub-conditions of a counter; every
      other kind of the game is OtherCondition. `itemIds` is the find-item
      condition's `target` array; `subConditions` is the counter's condition
      list reached by reflection, None when that list is null. */
  datatype Condition =
    | LeaveItemAtLocation(id: string, zoneId: string, isNecessary: bool)
    | PlaceBeacon(id: string, zoneId: string, isNecessary: bool)
    | FindItem(id: string, itemIds: seq<string>, isNecessary: bool)
    | CounterCreator(id: string, isNecessary: bool, subConditions: Option<seq<Condition>>)
    | VisitPlace(id: string, target: string, isNecessary: bool)
    | InZone(id: string, zoneIds: seq<string>, isNecessary: bool)
    | OtherCondition(id: string, isNecessary: bool)

  /** A quest template; `conditions(s)` is the template's condition list for status s. */
  datatype QuestTemplate = QuestTemplate(
    nameLocaleKey: string,
    traderId: string,
    conditions: QuestStatus -> seq<Condition>)

  /** A quest of the player's quest controller. */
  datatype Quest = Quest(status: QuestStatus, template: QuestTemplate)

  /** One marker of the overlay (`QuestData`). `zoneId` is None where the source
      leaves it unset. */
  datatype QuestData = QuestData(
    id: string,
    location: QuestLocation,
    zoneId: Option<string>,
    nameText: string,
    description: string,
    trader: string,
    isNecessary: bool)

  /** Everything of a marker but its location. */
  datatype MarkerInfo = MarkerInfo(
    id: string,
    zoneId: Option<string>,
    nameText: string,
    description: string,
    trader: string,
    isNecessary: bool)

  /** What every marker of one quest shares: the localised quest name and the trader name. */
  datatype QuestContext = QuestContext(nameText: string, trader: string)
  {
    function Info(id: string, zoneId: Option<string>, description: string, isNecessary: bool): MarkerInfo
    {
      MarkerInfo(id, zoneId, nameText, description, trader, isNecessary)
    }
  }

  /** What one reload reads besides the quests: the triggers of the level, the
      quest items lying in it, the localisation of a key, and the zone search
      `GetZoneTriggers<T>(allTriggers, zoneId)` (None when it returns null). */
  datatype Env = Env(
    allTriggers: seq<TriggerWithId>,
    questItems: seq<LootItem>,
    localized: string -> string,
    getZoneTriggers: (seq<TriggerWithId>, TriggerKind, string) -> Option<seq<TriggerWithId>>)
  {
    function ZoneTriggers(kind: TriggerKind, zoneId: string): Option<seq<TriggerWithId>>
    {
      getZoneTriggers(allTriggers, kind, zoneId)
    }
  }

  /** Errors thrown by ReloadQuestData before it assigns the markers. */
  datatype ReloadError =
    | LootItemsNull   // `Where` on a null loot list
    | QuestsListNull  // `questsList.Count` on a null quest list

  /** The coordinates of a marker's position, read back as a vector. */
  function AsVector(l: QuestLocation): Vector3
  {
    Vector3(l.x, l.y, l.z)
  }

  /** The position a marker is drawn at: the three coordinates copied, so that
      reading them back gives the original vector. */
  function ToQuestLocation(v: Vector3): (l: QuestLocation)
    ensures AsVector(l) == v
  {
    QuestLocation(v.x, v.y, v.z)
  }

  /** The marker for `info` at a position. */
  function Stamp(info: MarkerInfo, position: Vector3): QuestData
  {
    QuestData(info.id, ToQuestLocation(position), info.zoneId, info.nameText,
              info.description, info.trader, info.isNecessary)
  }

  predicate IsQuestItem(item: LootItem)
  {
    item.questItem
  }

  /** The `questItems` array: the loot whose item is a quest item, in order. */
  function QuestItems(loot: seq<LootItem>): (items: seq<LootItem>)
    ensures |items| <= |loot|
    ensures forall k :: 0 <= k < |items| ==> items[k].questItem && items[k] in loot
  {
    Filter(loot, IsQuestItem)
  }

  predicate IsStarted(q: Quest)
  {
    q.status == Started
  }

  /** The condition kinds the top-level switch acts on (a counter only when its
      condition list is not null). */
  predicate IsHandledCondition(c: Condition)
  {
    c.LeaveItemAtLocation? || c.PlaceBeacon? || c.FindItem? ||
    (c.CounterCreator? && c.subConditions.Some?)
  }

  /** The sub-condition kinds the counter's switch acts on. */
  predicate IsHandledSubCondition(c: Condition)
  {
    c.VisitPlace? || c.InZone?
  }

  // ---------------------------------------------------------------------------
  // The markers one reload produces, level by level of the nested loops

  function TriggerStep(info: MarkerInfo): TriggerWithId -> seq<QuestData>
  {
    (t: TriggerWithId) => [Stamp(info, t.position)]
  }

  /** One marker per trigger found for a zone; none when the search returned null. */
  function ZoneMarkers(found: Option<seq<TriggerWithId>>, info: MarkerInfo): seq<QuestData>
  {
    if found.None? then [] else Flatten(found.value, TriggerStep(info))
  }

  function ItemStep(itemId: string, info: MarkerInfo): LootItem -> seq<QuestData>
  {
    (item: LootItem) => if EqualsIgnoreCase(item.templateId, itemId) then [Stamp(info, item.position)] else []
  }

  function TargetStep(items: seq<LootItem>, info: MarkerInfo): string -> seq<QuestData>
  {
    itemId => Flatten(items, ItemStep(itemId, info))
  }

  /** For each target id, for each quest item: a marker when the ids agree ignoring case. */
  function FindItemMarkers(itemIds: seq<string>, items: seq<LootItem>, info: MarkerInfo): seq<QuestData>
  {
    Flatten(itemIds, TargetStep(items, info))
  }

  function ZoneStep(counterId: string, isNecessary: bool, ctx: QuestContext, env: Env): string -> seq<QuestData>
  {
    zoneId => ZoneMarkers(env.ZoneTriggers(Experience, zoneId),
                          ctx.Info(counterId, Some(zoneId), env.localized(counterId), isNecessary))
  }

  /** The markers of one sub-condition of the counter `counterId`. */
  function SubConditionMarkers(sub: Condition, counterId: string, ctx: QuestContext, env: Env): seq<QuestData>
  {
    match sub
    case VisitPlace(id, target, isNecessary) =>
      ZoneMarkers(env.ZoneTriggers(Experience, target),
                  ctx.Info(id, Some(target), env.localized(counterId), isNecessary))
    case InZone(_, zoneIds, isNecessary) =>
      Flatten(zoneIds, ZoneStep(counterId, isNecessary, ctx, env))
    case _ => []
  }

  function SubConditionStep(counterId: string, ctx: QuestContext, env: Env): Condition -> seq<QuestData>
  {
    sub => SubConditionMarkers(sub, counterId, ctx, env)
  }

  /** The markers of one available-for-finish condition. */
  function ConditionMarkers(c: Condition, ctx: QuestContext, env: Env): seq<QuestData>
  {
    match c
    case LeaveItemAtLocation(id, zoneId, isNecessary) =>
      ZoneMarkers(env.ZoneTriggers(PlaceItem, zoneId),
                  ctx.Info(id, Some(zoneId), env.localized(id), isNecessary))
    case PlaceBeacon(id, zoneId, isNecessary) =>
      ZoneMarkers(env.ZoneTriggers(PlaceItem, zoneId),
                  ctx.Info(id, Some(zoneId), env.localized(id), isNecessary))
    case FindItem(id, itemIds, isNecessary) =>
      FindItemMarkers(itemIds, env.questItems, ctx.Info(id, None, env.localized(id), isNecessary))
    case CounterCreator(id, _, subConditions) =>
      if subConditions.None? then []
      else Flatten(subConditions.value, SubConditionStep(id, ctx, env))
    case _ => []
  }

  function ConditionStep(ctx: QuestContext, env: Env): Condition -> seq<QuestData>
  {
    c => ConditionMarkers(c, ctx, env)
  }

  function ContextOf(q: Quest, localized: string -> string): QuestContext
  {
    QuestContext(localized(q.template.nameLocaleKey), TraderIdToName(q.template.traderId, localized))
  }

  /** The markers of one quest: none unless it is started, else those of its
      available-for-finish conditions. */
  function QuestMarkers(q: Quest, env: Env): seq<QuestData>
  {
    if !IsStarted(q) then []
    else Flatten(q.template.conditions(AvailableForFinish), ConditionStep(ContextOf(q, env.localized), env))
  }

  function QuestStep(env: Env): Quest -> seq<QuestData>
  {
    q => QuestMarkers(q, env)
  }

  /** The marker list one reload builds, in loop order: quest, condition, then
      zone, trigger or item. */
  function CollectMarkers(quests: seq<Quest>, env: Env): seq<QuestData>
  {
    Flatten(quests, QuestStep(env))
  }

  // ---------------------------------------------------------------------------
  // Properties of the marker list

  /** Copying a position into a marker loses nothing. */
  lemma ToQuestLocationInjective(v: Vector3, w: Vector3)
    ensures ToQuestLocation(v) == ToQuestLocation(w) <==> v == w
  {
  }

  /** A zone search yields one marker per trigger, in trigger order, at the
      trigger's position; a null result yields none. */
  lemma ZoneMarkersOnePerTrigger(found: Option<seq<TriggerWithId>>, info: MarkerInfo)
    ensures found.None? ==> ZoneMarkers(found, info) == []
    ensures found.Some? ==>
      |ZoneMarkers(found, info)| == |found.value| &&
      forall k :: 0 <= k < |found.value| ==>
        ZoneMarkers(found, info)[k] == Stamp(info, found.value[k].position)
  {
    if found.Some? {
      FlattenSingletons(found.value, TriggerStep(info), (t: TriggerWithId) => Stamp(info, t.position));
    }
  }

  lemma ZoneMarkersMember(found: Option<seq<TriggerWithId>>, info: MarkerInfo, m: QuestData)
    ensures m in ZoneMarkers(found, info) <==>
      found.Some? && exists t :: t in found.value && m == Stamp(info, t.position)
  {
    if found.Some? {
      FlattenMember(found.value, TriggerStep(info), m);
    }
  }

  /** A leave-item or place-beacon condition yields exactly one marker per
      place-item trigger of its zone, carrying the condition's id, zone and
      necessity flag; none when the search returns null. */
  lemma PlaceItemConditionMarkers(c: Condition, ctx: QuestContext, env: Env)
    requires c.LeaveItemAtLocation? || c.PlaceBeacon?
    ensures env.ZoneTriggers(PlaceItem, c.zoneId).None? ==> ConditionMarkers(c, ctx, env) == []
    ensures env.ZoneTriggers(PlaceItem, c.zoneId).Some? ==>
      var triggers := env.ZoneTriggers(PlaceItem, c.zoneId).value;
      var ms := ConditionMarkers(c, ctx, env);
      |ms| == |triggers| &&
      forall k :: 0 <= k < |ms| ==>
        ms[k].id == c.id && ms[k].zoneId == Some(c.zoneId) && ms[k].isNecessary == c.isNecessary &&
        ms[k].location == ToQuestLocation(triggers[k].position) &&
        ms[k].description == env.localized(c.id) &&
        ms[k].nameText == ctx.nameText && ms[k].trader == ctx.trader
  {
    ZoneMarkersOnePerTrigger(env.ZoneTriggers(PlaceItem, c.zoneId),
                             ctx.Info(c.id, Some(c.zoneId), env.localized(c.id), c.isNecessary));
  }

  /** A find-item marker is exactly one for a (target id, item) pair whose ids
      agree ignoring case, placed at the item. */
  lemma FindItemMarkersMatchPairs(itemIds: seq<string>, items: seq<LootItem>, info: MarkerInfo, m: QuestData)
    ensures m in FindItemMarkers(itemIds, items, info) <==>
      exists itemId, item :: itemId in itemIds && item in items &&
        EqualsIgnoreCase(item.templateId, itemId) && m == Stamp(info, item.position)
  {
    FlattenMember(itemIds, TargetStep(items, info), m);
    forall itemId | itemId in itemIds
      ensures m in TargetStep(items, info)(itemId) <==>
        exists item :: item in items && EqualsIgnoreCase(item.templateId, itemId) && m == Stamp(info, item.position)
    {
      FlattenMember(items, ItemStep(itemId, info), m);
    }
  }

  /** Number of items whose template id equals `itemId` ignoring case. */
  function MatchCount(items: seq<LootItem>, itemId: string): nat
  {
    if items == [] then 0
    else MatchCount(items[..|items| - 1], itemId) +
         (if EqualsIgnoreCase(items[|items| - 1].templateId, itemId) then 1 else 0)
  }

  /** Number of (target id, item) pairs whose ids agree ignoring case. */
  function PairCount(itemIds: seq<string>, items: seq<LootItem>): nat
  {
    if itemIds == [] then 0
    else PairCount(itemIds[..|itemIds| - 1], items) + MatchCount(items, itemIds[|itemIds| - 1])
  }

  lemma {:induction false} TargetMarkerCount(items: seq<LootItem>, itemId: string, info: MarkerInfo)
    ensures |Flatten(items, ItemStep(itemId, info))| == MatchCount(items, itemId)
  {
    if items != [] {
      TargetMarkerCount(items[..|items| - 1], itemId, info);
    }
  }

  /** A find-item condition yields exactly one marker per matching (target id, item) pair. */
  lemma {:induction false} FindItemMarkerCount(itemIds: seq<string>, items: seq<LootItem>, info: MarkerInfo)
    ensures |FindItemMarkers(itemIds, items, info)| == PairCount(itemIds, items)
  {
    if itemIds != [] {
      FindItemMarkerCount(itemIds[..|itemIds| - 1], items, info);
      TargetMarkerCount(items, itemIds[|itemIds| - 1], info);
    }
  }

  /** A find-item condition marks the loot items that are quest items and whose
      template id equals one of its targets ignoring case; each marker has the
      condition's id and no zone. */
  lemma FindItemConditionMarkers(c: Condition, ctx: QuestContext, loot: seq<LootItem>, env: Env, m: QuestData)
    requires c.FindItem? && env.questItems == QuestItems(loot)
    ensures m in ConditionMarkers(c, ctx, env) <==>
      exists itemId, item :: itemId in c.itemIds && item in loot && item.questItem &&
        EqualsIgnoreCase(item.templateId, itemId) &&
        m == Stamp(ctx.Info(c.id, None, env.localized(c.id), c.isNecessary), item.position)
  {
    FindItemMarkersMatchPairs(c.itemIds, env.questItems, ctx.Info(c.id, None, env.localized(c.id), c.isNecessary), m);
    forall item ensures item in QuestItems(loot) <==> item in loot && item.questItem {
      FilterMember(loot, IsQuestItem, item);
    }
  }

  /** Number of triggers the zone search finds over a list of zones. */
  function TriggerCount(zoneIds: seq<string>, env: Env): nat
  {
    if zoneIds == [] then 0
    else
      var found := env.ZoneTriggers(Experience, zoneIds[|zoneIds| - 1]);
      TriggerCount(zoneIds[..|zoneIds| - 1], env) + (if found.None? then 0 else |found.value|)
  }

  /** An in-zone sub-condition yields one marker per trigger per listed zone. */
  lemma {:induction false} InZoneMarkerCount(counterId: string, zoneIds: seq<string>, isNecessary: bool,
                                             ctx: QuestContext, env: Env)
    ensures |Flatten(zoneIds, ZoneStep(counterId, isNecessary, ctx, env))| == TriggerCount(zoneIds, env)
  {
    if zoneIds != [] {
      var zoneId := zoneIds[|zoneIds| - 1];
      InZoneMarkerCount(counterId, zoneIds[..|zoneIds| - 1], isNecessary, ctx, env);
      ZoneMarkersOnePerTrigger(env.ZoneTriggers(Experience, zoneId),
                               ctx.Info(counterId, Some(zoneId), env.localized(counterId), isNecessary));
    }
  }

  /** The markers of an in-zone sub-condition: for a listed zone and a trigger
      found for it, a marker with the counter's id, that zone and the
      sub-condition's necessity flag, and nothing else. */
  lemma InZoneMarkers(sub: Condition, counterId: string, ctx: QuestContext, env: Env, m: QuestData)
    requires sub.InZone?
    ensures m in SubConditionMarkers(sub, counterId, ctx, env) <==>
      exists zoneId, t :: zoneId in sub.zoneIds &&
        env.ZoneTriggers(Experience, zoneId).Some? && t in env.ZoneTriggers(Experience, zoneId).value &&
        m == Stamp(ctx.Info(counterId, Some(zoneId), env.localized(counterId), sub.isNecessary), t.position)
    ensures |SubConditionMarkers(sub, counterId, ctx, env)| == TriggerCount(sub.zoneIds, env)
  {
    FlattenMember(sub.zoneIds, ZoneStep(counterId, sub.isNecessary, ctx, env), m);
    forall zoneId | zoneId in sub.zoneIds
      ensures m in ZoneStep(counterId, sub.isNecessary, ctx, env)(zoneId) <==>
        env.ZoneTriggers(Experience, zoneId).Some? &&
        exists t :: t in env.ZoneTriggers(Experience, zoneId).value &&
          m == Stamp(ctx.Info(counterId, Some(zoneId), env.localized(counterId), sub.isNecessary), t.position)
    {
      ZoneMarkersMember(env.ZoneTriggers(Experience, zoneId),
                        ctx.Info(counterId, Some(zoneId), env.localized(counterId), sub.isNecessary), m);
    }
    InZoneMarkerCount(counterId, sub.zoneIds, sub.isNecessary, ctx, env);
  }

  /** A visit-place sub-condition yields one marker per experience trigger of
      its target zone, with the place's id, the target as zone and the
      counter's description. */
  lemma VisitPlaceMarkers(sub: Condition, counterId: string, ctx: QuestContext, env: Env)
    requires sub.VisitPlace?
    ensures env.ZoneTriggers(Experience, sub.target).None? ==> SubConditionMarkers(sub, counterId, ctx, env) == []
    ensures env.ZoneTriggers(Experience, sub.target).Some? ==>
      var triggers := env.ZoneTriggers(Experience, sub.target).value;
      var ms := SubConditionMarkers(sub, counterId, ctx, env);
      |ms| == |triggers| &&
      forall k :: 0 <= k < |ms| ==>
        ms[k].id == sub.id && ms[k].zoneId == Some(sub.target) && ms[k].isNecessary == sub.isNecessary &&
        ms[k].location == ToQuestLocation(triggers[k].position) &&
        ms[k].description == env.localized(counterId)
  {
    ZoneMarkersOnePerTrigger(env.ZoneTriggers(Experience, sub.target),
                             ctx.Info(sub.id, Some(sub.target), env.localized(counterId), sub.isNecessary));
  }

  /** Conditions of kinds the switch does not handle, and counters whose
      condition list is null, add nothing: dropping them changes no marker. */
  lemma UnhandledConditionsAddNothing(conditions: seq<Condition>, ctx: QuestContext, env: Env)
    ensures Flatten(conditions, ConditionStep(ctx, env)) ==
            Flatten(Filter(conditions, IsHandledCondition), ConditionStep(ctx, env))
  {
    FlattenSkipsEmpty(conditions, ConditionStep(ctx, env), IsHandledCondition);
  }

  /** Sub-conditions other than visit-place and in-zone add nothing. */
  lemma UnhandledSubConditionsAddNothing(subs: seq<Condition>, counterId: string, ctx: QuestContext, env: Env)
    ensures Flatten(subs, SubConditionStep(counterId, ctx, env)) ==
            Flatten(Filter(subs, IsHandledSubCondition), SubConditionStep(counterId, ctx, env))
  {
    FlattenSkipsEmpty(subs, SubConditionStep(counterId, ctx, env), IsHandledSubCondition);
  }

  /** A counter whose condition list is null is skipped, and only it: the
      conditions around it contribute as they would without it. */
  lemma NullSubConditionsSkipOnlyThatCondition(before: seq<Condition>, c: Condition, after: seq<Condition>,
                                               ctx: QuestContext, env: Env)
    requires c.CounterCreator? && c.subConditions.None?
    ensures Flatten(before + [c] + after, ConditionStep(ctx, env)) ==
            Flatten(before, ConditionStep(ctx, env)) + Flatten(after, ConditionStep(ctx, env))
  {
    var f := ConditionStep(ctx, env);
    FlattenAppend(before + [c], after, f);
    FlattenAppend(before, [c], f);
    assert [c][..0] == [];
  }

  /** Quests that are not started contribute no marker. */
  lemma OnlyStartedQuestsContribute(quests: seq<Quest>, env: Env)
    ensures CollectMarkers(quests, env) == CollectMarkers(Filter(quests, IsStarted), env)
  {
    FlattenSkipsEmpty(quests, QuestStep(env), IsStarted);
  }

  /** Only the available-for-finish conditions of a quest are read: quests that
      agree on them (and on status, name key and trader) have the same markers. */
  lemma OnlyAvailableForFinishConditionsRead(q1: Quest, q2: Quest, env: Env)
    requires q1.status == q2.status
    requires q1.template.nameLocaleKey == q2.template.nameLocaleKey
    requires q1.template.traderId == q2.template.traderId
    requires q1.template.conditions(AvailableForFinish) == q2.template.conditions(AvailableForFinish)
    ensures QuestMarkers(q1, env) == QuestMarkers(q2, env)
  {
  }

  /** Markers come in quest order: those of earlier quests first. */
  lemma CollectMarkersInQuestOrder(first: seq<Quest>, rest: seq<Quest>, env: Env)
    ensures CollectMarkers(first + rest, env) == CollectMarkers(first, env) + CollectMarkers(rest, env)
  {
    FlattenAppend(first, rest, QuestStep(env));
  }

  lemma SubConditionMarkersShareContext(sub: Condition, counterId: string, ctx: QuestContext, env: Env, m: QuestData)
    requires m in SubConditionMarkers(sub, counterId, ctx, env)
    ensures m.nameText == ctx.nameText && m.trader == ctx.trader
  {
    match sub
    case VisitPlace(id, target, isNecessary) =>
      ZoneMarkersMember(env.ZoneTriggers(Experience, target),
                        ctx.Info(id, Some(target), env.localized(counterId), isNecessary), m);
    case InZone(_, _, _) =>
      InZoneMarkers(sub, counterId, ctx, env, m);
  }

  /** Every marker of a condition carries its quest's name and trader. */
  lemma ConditionMarkersShareContext(c: Condition, ctx: QuestContext, env: Env, m: QuestData)
    requires m in ConditionMarkers(c, ctx, env)
    ensures m.nameText == ctx.nameText && m.trader == ctx.trader
  {
    match c
    case LeaveItemAtLocation(id, zoneId, isNecessary) =>
      ZoneMarkersMember(env.ZoneTriggers(PlaceItem, zoneId),
                        ctx.Info(id, Some(zoneId), env.localized(id), isNecessary), m);
    case PlaceBeacon(id, zoneId, isNecessary) =>
      ZoneMarkersMember(env.ZoneTriggers(PlaceItem, zoneId),
                        ctx.Info(id, Some(zoneId), env.localized(id), isNecessary), m);
    case FindItem(id, itemIds, isNecessary) =>
      FindItemMarkersMatchPairs(itemIds, env.questItems, ctx.Info(id, None, env.localized(id), isNecessary), m);
    case CounterCreator(id, _, subConditions) =>
      var subs := subConditions.value;
      FlattenMember(subs, SubConditionStep(id, ctx, env), m);
      var k :| 0 <= k < |subs| && m in SubConditionStep(id, ctx, env)(subs[k]);
      SubConditionMarkersShareContext(subs[k], id, ctx, env, m);
  }

  /** Every marker comes from a started quest, and carries that quest's
      localised name and trader name. */
  lemma MarkersComeFromStartedQuests(quests: seq<Quest>, env: Env, m: QuestData)
    requires m in CollectMarkers(quests, env)
    ensures exists k ::
              0 <= k < |quests| && quests[k].status == Started &&
              m.nameText == env.localized(quests[k].template.nameLocaleKey) &&
              m.trader == TraderIdToName(quests[k].template.traderId, env.localized)
  {
    FlattenMember(quests, QuestStep(env), m);
    var k :| 0 <= k < |quests| && m in QuestStep(env)(quests[k]);
    var q := quests[k];
    var ctx := ContextOf(q, env.localized);
    var conditions := q.template.conditions(AvailableForFinish);
    FlattenMember(conditions, ConditionStep(ctx, env), m);
    var j :| 0 <= j < |conditions| && m in ConditionStep(ctx, env)(conditions[j]);
    ConditionMarkersShareContext(conditions[j], ctx, env, m);
  }

  // ---------------------------------------------------------------------------
  // The loops of ReloadQuestData, one method per loop level

  /** The `foreach` over the triggers a zone search returned. */
  method AppendZoneMarkers(acc: seq<QuestData>, found: Option<seq<TriggerWithId>>, info: MarkerInfo)
    returns (markers: seq<QuestData>)
    ensures markers == acc + ZoneMarkers(found, info)
  {
    markers := acc;
    if found.Some? {
      var triggers := found.value;
      for i := 0 to |triggers|
        invariant markers == acc + Flatten(triggers[..i], TriggerStep(info))
      {
        FlattenExtend(acc, triggers, i, TriggerStep(info));
        markers := markers + [Stamp(info, triggers[i].position)];
      }
      assert triggers[..|triggers|] == triggers;
    }
  }

  /** The inner `foreach` of the find-item case: the quest items whose id is `itemId`. */
  method AppendTargetMarkers(acc: seq<QuestData>, itemId: string, items: seq<LootItem>, info: MarkerInfo)
    returns (markers: seq<QuestData>)
    ensures markers == acc + Flatten(items, ItemStep(itemId, info))
  {
    markers := acc;
    for j := 0 to |items|
      invariant markers == acc + Flatten(items[..j], ItemStep(itemId, info))
    {
      FlattenExtend(acc, items, j, ItemStep(itemId, info));
      if EqualsIgnoreCase(items[j].templateId, itemId) {
        markers := markers + [Stamp(info, items[j].position)];
      }
    }
    assert items[..|items|] == items;
  }

  /** The outer `foreach` of the find-item case, over the target ids. */
  method AppendFindItemMarkers(acc: seq<QuestData>, itemIds: seq<string>, items: seq<LootItem>, info: MarkerInfo)
    returns (markers: seq<QuestData>)
    ensures markers == acc + FindItemMarkers(itemIds, items, info)
  {
    markers := acc;
    for i := 0 to |itemIds|
      invariant markers == acc + Flatten(itemIds[..i], TargetStep(items, info))
    {
      FlattenExtend(acc, itemIds, i, TargetStep(items, info));
      markers := AppendTargetMarkers(markers, itemIds[i], items, info);
    }
    assert itemIds[..|itemIds|] == itemIds;
  }

  /** The `foreach` over the zone ids of an in-zone sub-condition. */
  method AppendInZoneMarkers(acc: seq<QuestData>, counterId: string, zoneIds: seq<string>, isNecessary: bool,
                             ctx: QuestContext, env: Env)
    returns (markers: seq<QuestData>)
    ensures markers == acc + Flatten(zoneIds, ZoneStep(counterId, isNecessary, ctx, env))
  {
    markers := acc;
    for j := 0 to |zoneIds|
      invariant markers == acc + Flatten(zoneIds[..j], ZoneStep(counterId, isNecessary, ctx, env))
    {
      FlattenExtend(acc, zoneIds, j, ZoneStep(counterId, isNecessary, ctx, env));
      markers := AppendZoneMarkers(markers, env.ZoneTriggers(Experience, zoneIds[j]),
                                   ctx.Info(counterId, Some(zoneIds[j]), env.localized(counterId), isNecessary));
    }
    assert zoneIds[..|zoneIds|] == zoneIds;
  }

  /** The `foreach` over a counter's sub-conditions, with its `switch`. */
  method AppendCounterMarkers(acc: seq<QuestData>, counterId: string, subs: seq<Condition>, ctx: QuestContext, env: Env)
    returns (markers: seq<QuestData>)
    ensures markers == acc + Flatten(subs, SubConditionStep(counterId, ctx, env))
  {
    markers := acc;
    for i := 0 to |subs|
      invariant markers == acc + Flatten(subs[..i], SubConditionStep(counterId, ctx, env))
    {
      FlattenExtend(acc, subs, i, SubConditionStep(counterId, ctx, env));
      var sub := subs[i];
      match sub
      case VisitPlace(id, target, isNecessary) =>
        markers := AppendZoneMarkers(markers, env.ZoneTriggers(Experience, target),
                                     ctx.Info(id, Some(target), env.localized(counterId), isNecessary));
      case InZone(_, zoneIds, isNecessary) =>
        markers := AppendInZoneMarkers(markers, counterId, zoneIds, isNecessary, ctx, env);
      case _ =>
    }
    assert subs[..|subs|] == subs;
  }

  /** The `switch` on the kind of one available-for-finish condition. */
  method AppendConditionMarkers(acc: seq<QuestData>, c: Condition, ctx: QuestContext, env: Env)
    returns (markers: seq<QuestData>)
    ensures markers == acc + ConditionMarkers(c, ctx, env)
  {
    match c
    case LeaveItemAtLocation(id, zoneId, isNecessary) =>
      markers := AppendZoneMarkers(acc, env.ZoneTriggers(PlaceItem, zoneId),
                                   ctx.Info(id, Some(zoneId), env.localized(id), isNecessary));
    case PlaceBeacon(id, zoneId, isNecessary) =>
      markers := AppendZoneMarkers(acc, env.ZoneTriggers(PlaceItem, zoneId),
                                   ctx.Info(id, Some(zoneId), env.localized(id), isNecessary));
    case FindItem(id, itemIds, isNecessary) =>
      markers := AppendFindItemMarkers(acc, itemIds, env.questItems,
                                       ctx.Info(id, None, env.localized(id), isNecessary));
    case CounterCreator(id, _, subConditions) =>
      if subConditions.None? {
        markers := acc;
      } else {
        markers := AppendCounterMarkers(acc, id, subConditions.value, ctx, env);
      }
    case _ =>
      markers := acc;
  }

  /** The `foreach` over the available-for-finish conditions of a started quest. */
  method AppendQuestMarkers(acc: seq<QuestData>, quest: Quest, env: Env) returns (markers: seq<QuestData>)
    requires IsStarted(quest)
    ensures markers == acc + QuestMarkers(quest, env)
  {
    var ctx := ContextOf(quest, env.localized);
    var conditions := quest.template.conditions(AvailableForFinish);
    markers := acc;
    for j := 0 to |conditions|
      invariant markers == acc + Flatten(conditions[..j], ConditionStep(ctx, env))
    {
      FlattenExtend(acc, conditions, j, ConditionStep(ctx, env));
      markers := AppendConditionMarkers(markers, conditions[j], ctx, env);
    }
    assert conditions[..|conditions|] == conditions;
  }

  /** The `foreach` over the quests, skipping those not started. */
  method BuildMarkers(quests: seq<Quest>, env: Env) returns (markers: seq<QuestData>)
    ensures markers == CollectMarkers(quests, env)
  {
    markers := [];
    for i := 0 to |quests|
      invariant markers == Flatten(quests[..i], QuestStep(env))
    {
      FlattenSnoc(quests, i, QuestStep(env));
      if quests[i].status != Started {
        continue;
      }
      markers := AppendQuestMarkers(markers, quests[i], env);
    }
    assert quests[..|quests|] == quests;
  }

  // ---------------------------------------------------------------------------
  // The service object

  class QuestDataService {
    /** The markers of the last successful reload (`QuestMarkers`). */
    var questMarkers: seq<QuestData>

    constructor ()
      ensures questMarkers == []
    {
      questMarkers := [];
    }

    /** Rebuild the markers from the quest list and the loot list the source
        reads by reflection (None for a null list). The quest-item array is
        built first and the quest list's count is read next, so a null list
        throws there, before anything is assigned. Otherwise the new list
        replaces the old one wholesale. */
    method ReloadQuestData(
      allTriggers: seq<TriggerWithId>,
      questsList: Option<seq<Quest>>,
      lootItems: Option<seq<LootItem>>,
      localized: string -> string,
      getZoneTriggers: (seq<TriggerWithId>, TriggerKind, string) -> Option<seq<TriggerWithId>>)
      returns (outcome: Outcome<ReloadError>)
      modifies this
      ensures lootItems.None? ==> outcome == Threw(LootItemsNull)
      ensures lootItems.Some? && questsList.None? ==> outcome == Threw(QuestsListNull)
      ensures outcome.Threw? ==> questMarkers == old(questMarkers)
      ensures lootItems.Some? && questsList.Some? ==>
        outcome == Returned &&
        questMarkers == CollectMarkers(questsList.value,
                                       Env(allTriggers, QuestItems(lootItems.value), localized, getZoneTriggers))
    {
      if lootItems.None? {
        return Threw(LootItemsNull);
      }
      var questItems := QuestItems(lootItems.value);
      if questsList.None? {
        return Threw(QuestsListNull);
      }
      var env := Env(allTriggers, questItems, localized, getZoneTriggers);
      var questMarkerData := BuildMarkers(questsList.value, env);
      questMarkers := questMarkerData;
      outcome := Returned;
    }
  }
}
