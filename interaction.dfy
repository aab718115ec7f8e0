/** Character interaction (src/character_interaction.py): which hit area a
    clicked part belongs to, which motion and reply a hit area triggers, and
    the table of hit areas read from a model's configuration. */
module Interaction {
  import opened Base
  import opened Text
  import opened Json

  // ---------------------------------------------------------------------
  // Hit areas
  // ---------------------------------------------------------------------

  /** The six interaction areas the classifier can produce. */
  datatype HitArea = Head | Body | Hand | Foot | Belly | Chest

  /** The area's key in the interaction and reply tables. */
  function AreaId(a: HitArea): string {
    match a
    case Head => "HitAreaHead"
    case Body => "HitAreaBody"
    case Hand => "HitAreaHand"
    case Foot => "HitAreaFoot"
    case Belly => "HitAreaBelly"
    case Chest => "HitAreaChest"
  }

  lemma AreaIdInjective(a: HitArea, b: HitArea)
    ensures AreaId(a) == AreaId(b) ==> a == b
  {
  }

  // ---------------------------------------------------------------------
  // Part patterns: each compiled pattern is a list of alternatives, and
  // every alternative is a literal token with one of three anchorings.
  // ---------------------------------------------------------------------

  datatype Alternative =
    | Whole(token: string)       // `^token$`
    | Prefix(token: string)      // `^token`
    | Anywhere(token: string)    // `token`

  datatype PartRule = PartRule(alternatives: seq<Alternative>, area: HitArea)

  /** The part patterns, in the order they are tried. */
  const PART_PATTERNS: seq<PartRule> := [
    PartRule([Whole("PartCore"), Anywhere("Robe"), Anywhere("Body")], Body),
    PartRule([Prefix("PartLeg")], Foot),
    PartRule([Prefix("PartArm"), Anywhere("Hand"), Anywhere("Wand")], Hand),
    PartRule([Anywhere("Head"), Anywhere("Face"), Anywhere("Hair"), Anywhere("Eye"),
              Anywhere("Brow"), Anywhere("Hat"), Anywhere("Mouth")], Head),
    PartRule([Anywhere("Chest"), Anywhere("Bust")], Chest),
    PartRule([Anywhere("Belly"), Anywhere("Stomach")], Belly)
  ]

  /** Whether `re.search` with `re.IGNORECASE` finds the alternative in `s`.
      Both sides are folded to lower case; `$` also matches just before a
      final newline, as in Python. */
  predicate AlternativeMatches(alt: Alternative, s: string) {
    var text := LowerStr(s);
    match alt
    case Whole(t) => text == LowerStr(t) || text == LowerStr(t) + "\n"
    case Prefix(t) => StartsWith(text, LowerStr(t))
    case Anywhere(t) => Contains(text, LowerStr(t))
  }

  predicate RuleMatches(rule: PartRule, s: string) {
    exists k :: 0 <= k < |rule.alternatives| && AlternativeMatches(rule.alternatives[k], s)
  }

  /** The index of the first rule that matches `s`. */
  function FirstMatch(rules: seq<PartRule>, s: string): (r: Option<nat>)
    ensures r.Some? ==> r.value < |rules| && RuleMatches(rules[r.value], s)
    ensures r.Some? ==> forall j :: 0 <= j < r.value ==> !RuleMatches(rules[j], s)
    ensures r.None? ==> forall j :: 0 <= j < |rules| ==> !RuleMatches(rules[j], s)
  {
    if rules == [] then None
    else if RuleMatches(rules[0], s) then Some(0)
    else
      match FirstMatch(rules[1..], s)
      case None => None
      case Some(k) => Some(k + 1)
  }

  /** `(part_id or "").strip()`. */
  function NormalizePartId(partId: Option<string>): string {
    Strip(partId.GetOr(""))
  }

  /** `_infer_hit_area_from_part`: the area of the first pattern that matches
      the trimmed part id, and the body when none does (`InferByFirstRule`
      and `InferNoRule` state both cases). */
  function InferHitArea(partId: Option<string>): (r: HitArea)
    ensures r == Body || exists i :: 0 <= i < |PART_PATTERNS| && PART_PATTERNS[i].area == r
                                     && RuleMatches(PART_PATTERNS[i], NormalizePartId(partId))
  {
    var s := NormalizePartId(partId);
    match FirstMatch(PART_PATTERNS, s)
    case Some(i) => PART_PATTERNS[i].area
    case None => Body
  }

  /** The first-match search returns `i` once rule `i` matches and no
      earlier rule does. */
  lemma {:induction false} FirstMatchAt(rules: seq<PartRule>, s: string, i: nat)
    requires i < |rules| && RuleMatches(rules[i], s)
    requires forall j :: 0 <= j < i ==> !RuleMatches(rules[j], s)
    ensures FirstMatch(rules, s) == Some(i)
  {
  }

  /** The area is that of rule `i` once rule `i` matches and no earlier rule
      does. */
  lemma {:induction false} InferByFirstRule(partId: Option<string>, i: nat)
    requires i < |PART_PATTERNS|
    requires RuleMatches(PART_PATTERNS[i], NormalizePartId(partId))
    requires forall j :: 0 <= j < i ==> !RuleMatches(PART_PATTERNS[j], NormalizePartId(partId))
    ensures InferHitArea(partId) == PART_PATTERNS[i].area
  {
    FirstMatchAt(PART_PATTERNS, NormalizePartId(partId), i);
  }

  /** A part id no pattern matches is the body. */
  lemma {:induction false} InferNoRule(partId: Option<string>)
    requires forall i :: 0 <= i < |PART_PATTERNS| ==> !RuleMatches(PART_PATTERNS[i], NormalizePartId(partId))
    ensures InferHitArea(partId) == Body
  {
  }

  // ---------------------------------------------------------------------
  // Interaction and reply tables
  // ---------------------------------------------------------------------

  /** One INTERACTION_MAP entry: a motion name and a fixed reply. */
  datatype Reaction = Reaction(motion: string, response: string)

  /** INTERACTION_MAP together with RESPONSES. */
  datatype Catalog = Catalog(interactions: map<string, Reaction>, responses: map<string, seq<string>>)

  const DEFAULT_MOTION: string := "mtn_02"
  const DEFAULT_RESPONSE: string := "嗯？怎麼了？"

  const CATALOG: Catalog := Catalog(
    map[
      "HitAreaHead" := Reaction("mtn_02", "謝謝主人 <3 ~"),
      "HitAreaBody" := Reaction("mtn_03", "主人！你要幹嘛？！"),
      "HitAreaHand" := Reaction("mtn_04", "牽手手~"),
      "HitAreaFoot" := Reaction("special_01", "不要碰我的腳啦~"),
      "HitAreaBelly" := Reaction("special_02", "好癢喔~"),
      "HitAreaChest" := Reaction("special_03", "變態！不要亂摸！")
    ],
    map[
      "HitAreaHead" := ["謝謝主人 <3 ~", "嘿嘿～摸摸頭最舒服了！", "呀～別弄亂我的頭髮啦！"],
      "HitAreaBody" := ["主人！你要幹嘛？！", "嗯？怎麼啦？", "我在這裡喔～"],
      "HitAreaHand" := ["牽手手～", "握緊緊，不准放開！", "要一起去散步嗎？"],
      "HitAreaFoot" := ["不要碰我的腳啦～", "癢癢的！", "哼哼～想偷襲嗎？"],
      "HitAreaBelly" := ["好癢喔～", "咕嚕咕嚕…肚子在叫了", "別戳啦～我會笑出來！"],
      "HitAreaChest" := ["變態！不要亂摸！", "住手！那裡不行！", "你、你在看哪裡啦！"]
    ])

  /** `get_interaction`: the motion and a reply for an area id. `pick` stands
      for `random.choice`: the reply is the list entry at `pick` modulo the
      list's length. */
  function GetInteraction(c: Catalog, areaId: string, pick: nat): (r: (string, string))
    ensures areaId !in c.interactions ==> r == (DEFAULT_MOTION, DEFAULT_RESPONSE)
    ensures areaId in c.interactions ==> r.0 == c.interactions[areaId].motion
    ensures areaId in c.interactions && areaId in c.responses && c.responses[areaId] != []
            ==> r.1 in c.responses[areaId]
    ensures areaId in c.interactions && areaId in c.responses && pick < |c.responses[areaId]|
            ==> r.1 == c.responses[areaId][pick]
    ensures areaId in c.interactions && (areaId !in c.responses || c.responses[areaId] == [])
            ==> r.1 == c.interactions[areaId].response
  {
    if areaId in c.interactions then
      var interaction := c.interactions[areaId];
      if areaId in c.responses && c.responses[areaId] != [] then
        var replies := c.responses[areaId];
        (interaction.motion, replies[pick % |replies|])
      else
        (interaction.motion, interaction.response)
    else
      (DEFAULT_MOTION, DEFAULT_RESPONSE)
  }

  /** Every area the classifier can produce has an interaction entry and a
      non-empty reply list, and no reply list contains the default reply. */
  lemma {:induction false} CatalogCoversAreas(a: HitArea)
    ensures AreaId(a) in CATALOG.interactions
    ensures AreaId(a) in CATALOG.responses && |CATALOG.responses[AreaId(a)]| == 3
    ensures DEFAULT_RESPONSE !in CATALOG.responses[AreaId(a)]
  {
    match a
    case Head => assert CATALOG.responses["HitAreaHead"] == ["謝謝主人 <3 ~", "嘿嘿～摸摸頭最舒服了！", "呀～別弄亂我的頭髮啦！"];
    case Body => assert CATALOG.responses["HitAreaBody"] == ["主人！你要幹嘛？！", "嗯？怎麼啦？", "我在這裡喔～"];
    case Hand => assert CATALOG.responses["HitAreaHand"] == ["牽手手～", "握緊緊，不准放開！", "要一起去散步嗎？"];
    case Foot => assert CATALOG.responses["HitAreaFoot"] == ["不要碰我的腳啦～", "癢癢的！", "哼哼～想偷襲嗎？"];
    case Belly => assert CATALOG.responses["HitAreaBelly"] == ["好癢喔～", "咕嚕咕嚕…肚子在叫了", "別戳啦～我會笑出來！"];
    case Chest => assert CATALOG.responses["HitAreaChest"] == ["變態！不要亂摸！", "住手！那裡不行！", "你、你在看哪裡啦！"];
  }

  /** `get_interaction_for_part`: the inferred area id, its motion and one of
      its replies. */
  function GetInteractionForPart(partId: Option<string>, pick: nat): (r: (string, string, string))
    ensures r.0 == AreaId(InferHitArea(partId))
    ensures r.0 in CATALOG.interactions && r.1 == CATALOG.interactions[r.0].motion
    ensures r.0 in CATALOG.responses && r.2 in CATALOG.responses[r.0]
    ensures (r.1, r.2) != (DEFAULT_MOTION, DEFAULT_RESPONSE)
  {
    var area := InferHitArea(partId);
    CatalogCoversAreas(area);
    var (motion, response) := GetInteraction(CATALOG, AreaId(area), pick);
    (AreaId(area), motion, response)
  }

  // ---------------------------------------------------------------------
  // The hit-area table read from the model configuration
  // ---------------------------------------------------------------------

  /** `area.get("Id", "")` of an entry that is a dict (other entries raise
      before their id is read). */
  function EntryId(area: Json): Json {
    if area.Obj? then Lookup(area.members, "Id").GetOr(Str("")) else Str("")
  }

  /** `area.get("Name", "")` of an entry that is a dict. */
  function EntryName(area: Json): Json {
    if area.Obj? then Lookup(area.members, "Name").GetOr(Str("")) else Str("")
  }

  /** One pass of the loop body: an entry that is not a dict raises
      AttributeError; a truthy id is stored with its name, and storing an id
      that is a list or a dict raises TypeError. */
  function AddHitArea(table: map<Json, Json>, area: Json): (r: Result<map<Json, Json>>)
    ensures r.Failure? <==> !area.Obj? || (Truthy(EntryId(area)) && !Hashable(EntryId(area)))
  {
    if !area.Obj? then Failure(AttributeError)
    else
      var id := EntryId(area);
      if !Truthy(id) then Success(table)
      else if !Hashable(id) then Failure(TypeError)
      else Success(table[id := EntryName(area)])
  }

  /** The table after the loop has run over `entries`: the first entry that
      raises ends the loop, and what was stored before it stays. */
  function FillHitAreas(table: map<Json, Json>, entries: seq<Json>): map<Json, Json>
    decreases |entries|
  {
    if entries == [] then table
    else
      match AddHitArea(table, entries[0])
      case Success(next) => FillHitAreas(next, entries[1..])
      case Failure(_) => table
  }

  /** The table `_load_hit_areas` leaves behind, given what the configuration
      file holds: a missing file, an undecodable file, a document that is not
      a dict and a `HitAreas` value that cannot be iterated all leave it as it
      was, because the exception is caught and printed. */
  function LoadedHitAreas(table: map<Json, Json>, file: ConfigFile): map<Json, Json>
  {
    if !file.Parsed? then table
    else
      match Get(file.doc, "HitAreas", Arr([]))
      case Failure(_) => table
      case Success(areas) =>
        match Iterate(areas)
        case Failure(_) => table
        case Success(entries) => FillHitAreas(table, entries)
  }

  /** An entry the loop can store without raising. */
  predicate StorableEntry(area: Json) {
    area.Obj? && (Truthy(EntryId(area)) ==> Hashable(EntryId(area)))
  }

  /** The truthy ids among `entries`. */
  function StoredIds(entries: seq<Json>): (r: set<Json>)
    ensures forall k :: k in r <==> exists i :: 0 <= i < |entries| && Truthy(EntryId(entries[i])) && EntryId(entries[i]) == k
    decreases |entries|
  {
    if entries == [] then {}
    else
      var rest := StoredIds(entries[1..]);
      assert forall i :: 0 < i < |entries| ==> entries[i] == entries[1..][i - 1];
      (if Truthy(EntryId(entries[0])) then {EntryId(entries[0])} else {}) + rest
  }

  /** When no entry raises, the table's keys are the earlier keys and the
      truthy ids of the entries, and nothing else. */
  lemma {:induction false} FillKeys(table: map<Json, Json>, entries: seq<Json>)
    requires forall i :: 0 <= i < |entries| ==> StorableEntry(entries[i])
    ensures FillHitAreas(table, entries).Keys == table.Keys + StoredIds(entries)
    decreases |entries|
  {
    if entries != [] {
      var next := AddHitArea(table, entries[0]).value;
      FillKeys(next, entries[1..]);
    }
  }

  /** A key no entry names keeps its value. */
  lemma {:induction false} FillKeepsOthers(table: map<Json, Json>, entries: seq<Json>, k: Json)
    requires forall i :: 0 <= i < |entries| ==> StorableEntry(entries[i])
    requires k in table && k !in StoredIds(entries)
    ensures k in FillHitAreas(table, entries) && FillHitAreas(table, entries)[k] == table[k]
    decreases |entries|
  {
    if entries != [] {
      var next := AddHitArea(table, entries[0]).value;
      assert k !in StoredIds(entries[1..]);
      FillKeepsOthers(next, entries[1..], k);
    }
  }

  /** The last entry with a given truthy id decides the stored name. */
  lemma {:induction false} FillLastWins(table: map<Json, Json>, entries: seq<Json>, i: nat)
    requires forall j :: 0 <= j < |entries| ==> StorableEntry(entries[j])
    requires i < |entries| && Truthy(EntryId(entries[i]))
    requires forall j :: i < j < |entries| ==> EntryId(entries[j]) != EntryId(entries[i])
    ensures EntryId(entries[i]) in FillHitAreas(table, entries)
    ensures FillHitAreas(table, entries)[EntryId(entries[i])] == EntryName(entries[i])
    decreases |entries|
  {
    var next := AddHitArea(table, entries[0]).value;
    var rest := entries[1..];
    if i == 0 {
      assert EntryId(entries[0]) !in StoredIds(rest) by {
        forall j | 0 <= j < |rest| ensures EntryId(rest[j]) != EntryId(entries[0]) {
          assert rest[j] == entries[j + 1];
        }
      }
      FillKeepsOthers(next, rest, EntryId(entries[0]));
    } else {
      assert rest[i - 1] == entries[i];
      forall j | i - 1 < j < |rest| ensures EntryId(rest[j]) != EntryId(rest[i - 1]) {
        assert rest[j] == entries[j + 1];
      }
      FillLastWins(next, rest, i - 1);
    }
  }

  /** An entry that raises (not a dict, or a truthy id that cannot be a dict
      key) stops the loop: nothing after it is read. */
  lemma {:induction false} FillStopsAtRaise(table: map<Json, Json>, before: seq<Json>, bad: Json, after: seq<Json>)
    requires !StorableEntry(bad)
    ensures FillHitAreas(table, before + [bad] + after) == FillHitAreas(table, before)
    decreases |before|
  {
    if before == [] {
      assert before + [bad] + after == [bad] + after;
    } else {
      assert (before + [bad] + after)[1..] == before[1..] + [bad] + after;
      match AddHitArea(table, before[0])
      case Success(next) => FillStopsAtRaise(next, before[1..], bad, after);
      case Failure(_) =>
    }
  }

  /** The hit-area table of one character (the state of the
      CharacterInteraction object). */
  class CharacterInteraction {
    const modelConfigPath: Option<Path>
    var hitAreas: map<Json, Json>

    /** `__init__`: an empty table, filled from the configuration when a path
        is given. */
    constructor (modelConfigPath: Option<Path>, file: ConfigFile)
      ensures this.modelConfigPath == modelConfigPath
      ensures hitAreas == if modelConfigPath.Some? then LoadedHitAreas(map[], file) else map[]
    {
      this.modelConfigPath := modelConfigPath;
      hitAreas := map[];
      new;
      if modelConfigPath.Some? {
        LoadHitAreas(file);
      }
    }

    /** `_load_hit_areas`: stores the truthy `Id` of every `HitAreas` entry
        with its `Name`, in file order, until an entry raises. */
    method LoadHitAreas(file: ConfigFile)
      modifies this`hitAreas
      ensures hitAreas == if modelConfigPath.Some? then LoadedHitAreas(old(hitAreas), file) else old(hitAreas)
    {
      if modelConfigPath.None? || !file.Parsed? {
        return;
      }
      var areas := Get(file.doc, "HitAreas", Arr([]));
      if areas.Failure? {
        return;
      }
      var entries := Iterate(areas.value);
      if entries.Failure? {
        return;
      }
      var es := entries.value;
      var i := 0;
      while i < |es|
        invariant 0 <= i <= |es|
        invariant FillHitAreas(hitAreas, es[i..]) == LoadedHitAreas(old(hitAreas), file)
      {
        var area := es[i];
        assert es[i..][1..] == es[i + 1..];
        if !area.Obj? {
          return;
        }
        var areaId := Lookup(area.members, "Id").GetOr(Str(""));
        var areaName := Lookup(area.members, "Name").GetOr(Str(""));
        if Truthy(areaId) {
          if !Hashable(areaId) {
            return;
          }
          hitAreas := hitAreas[areaId := areaName];
        }
        i := i + 1;
      }
    }

    /** `get_all_hit_areas`: the table as a value; the caller's copy and the
        object's table cannot affect each other. */
    method GetAllHitAreas() returns (r: map<Json, Json>)
      ensures r == hitAreas
    {
      r := hitAreas;
    }
  }

  // ---------------------------------------------------------------------
  // Properties of the classifier
  // ---------------------------------------------------------------------

  /** Classification reads the part id only through its trimmed, lower-cased
      form. */
  lemma {:induction false} FirstMatchIgnoresCase(rules: seq<PartRule>, s: string, t: string)
    requires LowerStr(s) == LowerStr(t)
    ensures FirstMatch(rules, s) == FirstMatch(rules, t)
  {
    if rules != [] {
      assert RuleMatches(rules[0], s) == RuleMatches(rules[0], t) by {
        forall k | 0 <= k < |rules[0].alternatives|
          ensures AlternativeMatches(rules[0].alternatives[k], s) == AlternativeMatches(rules[0].alternatives[k], t)
        {
        }
      }
      FirstMatchIgnoresCase(rules[1..], s, t);
    }
  }

  lemma {:induction false} InferHitAreaIgnoresCase(a: Option<string>, b: Option<string>)
    requires LowerStr(NormalizePartId(a)) == LowerStr(NormalizePartId(b))
    ensures InferHitArea(a) == InferHitArea(b)
  {
    FirstMatchIgnoresCase(PART_PATTERNS, NormalizePartId(a), NormalizePartId(b));
  }

  /** The first rule (core, robe, body) is tried before every other: a part
      id whose trimmed form contains "robe" or "body" in any case is the body,
      whatever head, hand or leg token it also holds. */
  lemma {:induction false} TorsoTokenWins(partId: Option<string>)
    requires Contains(LowerStr(NormalizePartId(partId)), "robe")
          || Contains(LowerStr(NormalizePartId(partId)), "body")
    ensures InferHitArea(partId) == Body
  {
    TorsoRuleSpelledOut(NormalizePartId(partId));
    InferByFirstRule(partId, 0);
  }

  /** A part id that is exactly "PartCore" in any case, after trimming, is
      the body. */
  lemma {:induction false} PartCoreIsBody(partId: Option<string>)
    requires LowerStr(NormalizePartId(partId)) == "partcore"
    ensures InferHitArea(partId) == Body
  {
    TorsoRuleSpelledOut(NormalizePartId(partId));
    InferByFirstRule(partId, 0);
  }

  /** `$` could also match before a final newline, but a trimmed id never
      ends in one, so the `^PartCore$` alternative is an exact comparison. */
  lemma {:induction false} WholeIsExactAfterStrip(partId: Option<string>, t: string)
    ensures AlternativeMatches(Whole(t), NormalizePartId(partId))
            <==> LowerStr(NormalizePartId(partId)) == LowerStr(t)
  {
    var s := NormalizePartId(partId);
    if LowerStr(s) == LowerStr(t) + "\n" {
      assert s != [] && LowerStr(s)[|s| - 1] == '\n';
      assert IsPySpace(s[|s| - 1]);
      assert false;
    }
  }

  // ---------------------------------------------------------------------
  // Worked cases
  // ---------------------------------------------------------------------

  /** A rule with alternatives a, b, c, ... matches exactly when one of them
      does. */
  lemma {:induction false} RuleMatchesSome(rule: PartRule, s: string)
    ensures RuleMatches(rule, s) <==> AnyMatches(rule.alternatives, s)
  {
    var alts := rule.alternatives;
    if RuleMatches(rule, s) {
      var k :| 0 <= k < |alts| && AlternativeMatches(alts[k], s);
      AnyMatchesAt(alts, s, k);
    }
    if AnyMatches(alts, s) {
      var k := AnyMatchesIndex(alts, s);
    }
  }

  predicate AnyMatches(alts: seq<Alternative>, s: string) {
    alts != [] && (AlternativeMatches(alts[0], s) || AnyMatches(alts[1..], s))
  }

  lemma {:induction false} AnyMatchesAt(alts: seq<Alternative>, s: string, k: nat)
    requires k < |alts| && AlternativeMatches(alts[k], s)
    ensures AnyMatches(alts, s)
  {
    if k > 0 { AnyMatchesAt(alts[1..], s, k - 1); }
  }

  lemma {:induction false} AnyMatchesIndex(alts: seq<Alternative>, s: string) returns (k: nat)
    requires AnyMatches(alts, s)
    ensures k < |alts| && AlternativeMatches(alts[k], s)
  {
    if AlternativeMatches(alts[0], s) {
      k := 0;
    } else {
      var j := AnyMatchesIndex(alts[1..], s);
      k := j + 1;
    }
  }


  // Each rule spelled out on the lower-cased text.

  lemma {:induction false} TorsoTokensLower()
    ensures LowerStr("PartCore") == "partcore" && LowerStr("Robe") == "robe" && LowerStr("Body") == "body"
  {
  }

  lemma {:induction false} TorsoRuleSpelledOut(s: string)
    ensures RuleMatches(PART_PATTERNS[0], s) <==>
      var t := LowerStr(s);
      t == "partcore" || t == "partcore\n" || Contains(t, "robe") || Contains(t, "body")
  {
    var t := LowerStr(s);
    var alts := PART_PATTERNS[0].alternatives;
    assert alts == [Whole("PartCore"), Anywhere("Robe"), Anywhere("Body")];
    TorsoTokensLower();
    if RuleMatches(PART_PATTERNS[0], s) {
      var k :| 0 <= k < |alts| && AlternativeMatches(alts[k], s);
    }
    if t == "partcore" || t == "partcore\n" { assert AlternativeMatches(alts[0], s); }
    if Contains(t, "robe") { assert AlternativeMatches(alts[1], s); }
    if Contains(t, "body") { assert AlternativeMatches(alts[2], s); }
  }

  lemma {:induction false} LegRuleSpelledOut(s: string)
    ensures RuleMatches(PART_PATTERNS[1], s) <==> StartsWith(LowerStr(s), "partleg")
  {
    var alts := PART_PATTERNS[1].alternatives;
    assert alts == [Prefix("PartLeg")];
    assert LowerStr("PartLeg") == "partleg";
    if RuleMatches(PART_PATTERNS[1], s) {
      var k :| 0 <= k < |alts| && AlternativeMatches(alts[k], s);
    }
    if StartsWith(LowerStr(s), "partleg") { assert AlternativeMatches(alts[0], s); }
  }

  lemma {:induction false} ArmTokensLower()
    ensures LowerStr("PartArm") == "partarm" && LowerStr("Hand") == "hand" && LowerStr("Wand") == "wand"
  {
  }

  lemma {:induction false} ArmRuleSpelledOut(s: string)
    ensures RuleMatches(PART_PATTERNS[2], s) <==>
      var t := LowerStr(s);
      StartsWith(t, "partarm") || Contains(t, "hand") || Contains(t, "wand")
  {
    var t := LowerStr(s);
    var alts := PART_PATTERNS[2].alternatives;
    assert alts == [Prefix("PartArm"), Anywhere("Hand"), Anywhere("Wand")];
    ArmTokensLower();
    if RuleMatches(PART_PATTERNS[2], s) {
      var k :| 0 <= k < |alts| && AlternativeMatches(alts[k], s);
    }
    if StartsWith(t, "partarm") { assert AlternativeMatches(alts[0], s); }
    if Contains(t, "hand") { assert AlternativeMatches(alts[1], s); }
    if Contains(t, "wand") { assert AlternativeMatches(alts[2], s); }
  }

  lemma {:induction false} HeadTokensLower()
    ensures LowerStr("Head") == "head" && LowerStr("Face") == "face" && LowerStr("Hair") == "hair"
    ensures LowerStr("Eye") == "eye" && LowerStr("Brow") == "brow" && LowerStr("Hat") == "hat"
    ensures LowerStr("Mouth") == "mouth"
  {
  }

  lemma {:induction false} HeadRuleSpelledOut(s: string)
    ensures RuleMatches(PART_PATTERNS[3], s) <==>
      var t := LowerStr(s);
      Contains(t, "head") || Contains(t, "face") || Contains(t, "hair") || Contains(t, "eye")
      || Contains(t, "brow") || Contains(t, "hat") || Contains(t, "mouth")
  {
    var alts := PART_PATTERNS[3].alternatives;
    assert alts == HEAD_TOKENS;
    HeadTokensLower();
    if RuleMatches(PART_PATTERNS[3], s) {
      var k :| 0 <= k < |alts| && AlternativeMatches(alts[k], s);
    }
    HeadTokenMatches(s);
  }

  const HEAD_TOKENS: seq<Alternative> :=
    [Anywhere("Head"), Anywhere("Face"), Anywhere("Hair"), Anywhere("Eye"),
     Anywhere("Brow"), Anywhere("Hat"), Anywhere("Mouth")]

  lemma {:induction false} HeadTokenMatches(s: string)
    ensures
      var t := LowerStr(s);
      (Contains(t, "head") || Contains(t, "face") || Contains(t, "hair") || Contains(t, "eye")
       || Contains(t, "brow") || Contains(t, "hat") || Contains(t, "mouth"))
      ==> exists k :: 0 <= k < |HEAD_TOKENS| && AlternativeMatches(HEAD_TOKENS[k], s)
  {
    var t := LowerStr(s);
    HeadTokensLower();
    if Contains(t, "head") { assert AlternativeMatches(HEAD_TOKENS[0], s); }
    if Contains(t, "face") { assert AlternativeMatches(HEAD_TOKENS[1], s); }
    if Contains(t, "hair") { assert AlternativeMatches(HEAD_TOKENS[2], s); }
    if Contains(t, "eye") { assert AlternativeMatches(HEAD_TOKENS[3], s); }
    if Contains(t, "brow") { assert AlternativeMatches(HEAD_TOKENS[4], s); }
    if Contains(t, "hat") { assert AlternativeMatches(HEAD_TOKENS[5], s); }
    if Contains(t, "mouth") { assert AlternativeMatches(HEAD_TOKENS[6], s); }
  }

  lemma {:induction false} ChestRuleSpelledOut(s: string)
    ensures RuleMatches(PART_PATTERNS[4], s) <==>
      var t := LowerStr(s);
      Contains(t, "chest") || Contains(t, "bust")
  {
    var t := LowerStr(s);
    var alts := PART_PATTERNS[4].alternatives;
    assert alts == [Anywhere("Chest"), Anywhere("Bust")];
    assert LowerStr("Chest") == "chest" && LowerStr("Bust") == "bust";
    if RuleMatches(PART_PATTERNS[4], s) {
      var k :| 0 <= k < |alts| && AlternativeMatches(alts[k], s);
    }
    if Contains(t, "chest") { assert AlternativeMatches(alts[0], s); }
    if Contains(t, "bust") { assert AlternativeMatches(alts[1], s); }
  }

  lemma {:induction false} BellyRuleSpelledOut(s: string)
    ensures RuleMatches(PART_PATTERNS[5], s) <==>
      var t := LowerStr(s);
      Contains(t, "belly") || Contains(t, "stomach")
  {
    var t := LowerStr(s);
    var alts := PART_PATTERNS[5].alternatives;
    assert alts == [Anywhere("Belly"), Anywhere("Stomach")];
    assert LowerStr("Belly") == "belly" && LowerStr("Stomach") == "stomach";
    if RuleMatches(PART_PATTERNS[5], s) {
      var k :| 0 <= k < |alts| && AlternativeMatches(alts[k], s);
    }
    if Contains(t, "belly") { assert AlternativeMatches(alts[0], s); }
    if Contains(t, "stomach") { assert AlternativeMatches(alts[1], s); }
  }

  /** No pattern matches the empty text. */
  lemma {:induction false} NoRuleMatchesEmpty()
    ensures forall i :: 0 <= i < |PART_PATTERNS| ==> !RuleMatches(PART_PATTERNS[i], "")
  {
    assert LowerStr("") == "";
    TorsoRuleSpelledOut("");
    LegRuleSpelledOut("");
    ArmRuleSpelledOut("");
    HeadRuleSpelledOut("");
    ChestRuleSpelledOut("");
    BellyRuleSpelledOut("");
    forall i | 0 <= i < |PART_PATTERNS| ensures !RuleMatches(PART_PATTERNS[i], "") {
      assert i == 0 || i == 1 || i == 2 || i == 3 || i == 4 || i == 5;
    }
  }

  /** A missing part id, and one that is empty after trimming, is the body. */
  lemma {:induction false} NoIdIsBody(partId: Option<string>)
    requires partId.None? || Strip(partId.value) == []
    ensures InferHitArea(partId) == Body
  {
    assert NormalizePartId(partId) == "";
    NoRuleMatchesEmpty();
    InferNoRule(partId);
  }

  /** An id reading "HeadRobe" in any case holds a head token, but the torso
      rule comes first. */
  lemma {:induction false} HeadRobeIsBody(partId: Option<string>)
    requires LowerStr(NormalizePartId(partId)) == "headrobe"
    ensures InferHitArea(partId) == Body
  {
    ContainsAt("headrobe", "robe", 4);
    TorsoRuleSpelledOut(NormalizePartId(partId));
    InferByFirstRule(partId, 0);
  }

  /** An id reading "PartLegHand" in any case holds a hand token, but the
      leg rule comes first. */
  lemma {:induction false} PartLegHandIsFoot(partId: Option<string>)
    requires LowerStr(NormalizePartId(partId)) == "partleghand"
    ensures InferHitArea(partId) == Foot
  {
    PartLegHandRules(NormalizePartId(partId));
    InferByFirstRule(partId, 1);
  }

  lemma {:induction false} PartLegHandRules(s: string)
    requires LowerStr(s) == "partleghand"
    ensures !RuleMatches(PART_PATTERNS[0], s)
    ensures RuleMatches(PART_PATTERNS[1], s)
  {
    MissingCharNotContained("partleghand", "robe", 'o');
    MissingCharNotContained("partleghand", "body", 'b');
    TorsoRuleSpelledOut(s);
    LegRuleSpelledOut(s);
  }

  /** "PartCore" must be the whole id: an id reading "PartCoreHead" in any
      case falls through to the head rule. */
  lemma {:induction false} PartCoreHeadIsHead(partId: Option<string>)
    requires LowerStr(NormalizePartId(partId)) == "partcorehead"
    ensures InferHitArea(partId) == Head
  {
    PartCoreHeadRules(NormalizePartId(partId));
    InferByFirstRule(partId, 3);
  }

  lemma {:induction false} PartCoreHeadRules(s: string)
    requires LowerStr(s) == "partcorehead"
    ensures !RuleMatches(PART_PATTERNS[0], s)
    ensures !RuleMatches(PART_PATTERNS[1], s)
    ensures !RuleMatches(PART_PATTERNS[2], s)
    ensures RuleMatches(PART_PATTERNS[3], s)
  {
    PartCoreHeadTokens();
    TorsoRuleSpelledOut(s);
    LegRuleSpelledOut(s);
    ArmRuleSpelledOut(s);
    HeadRuleSpelledOut(s);
  }

  lemma {:induction false} PartCoreHeadTokens()
    ensures !Contains("partcorehead", "robe") && !Contains("partcorehead", "body")
    ensures !Contains("partcorehead", "hand") && !Contains("partcorehead", "wand")
    ensures !StartsWith("partcorehead", "partleg") && !StartsWith("partcorehead", "partarm")
    ensures Contains("partcorehead", "head")
  {
    var t := "partcorehead";
    MissingCharNotContained(t, "robe", 'b');
    MissingCharNotContained(t, "body", 'b');
    MissingCharNotContained(t, "hand", 'n');
    MissingCharNotContained(t, "wand", 'w');
    NotPrefixAt(t, "partleg", 4);
    NotPrefixAt(t, "partarm", 4);
    ContainsAt(t, "head", 8);
  }

  /** An id reading "PartArmL" in any case, after trimming, is the hand,
      through the `^PartArm` prefix. */
  lemma {:induction false} LowerArmIsHand(partId: Option<string>)
    requires LowerStr(NormalizePartId(partId)) == "partarml"
    ensures InferHitArea(partId) == Hand
  {
    LowerArmRules(NormalizePartId(partId));
    InferByFirstRule(partId, 2);
  }

  lemma {:induction false} LowerArmRules(s: string)
    requires LowerStr(s) == "partarml"
    ensures !RuleMatches(PART_PATTERNS[0], s)
    ensures !RuleMatches(PART_PATTERNS[1], s)
    ensures RuleMatches(PART_PATTERNS[2], s)
  {
    MissingCharNotContained("partarml", "robe", 'o');
    MissingCharNotContained("partarml", "body", 'o');
    NotPrefixAt("partarml", "partleg", 4);
    TorsoRuleSpelledOut(s);
    LegRuleSpelledOut(s);
    ArmRuleSpelledOut(s);
  }

  /** Surrounding blanks are trimmed: " partarml " is read as "partarml", so
      `LowerArmIsHand` applies to it. */
  lemma {:induction false} PaddedArmStrip()
    ensures NormalizePartId(Some(" partarml ")) == "partarml"
    ensures LowerStr(NormalizePartId(Some(" partarml "))) == "partarml"
  {
    StripLeading(" partarml ");
    assert " partarml "[1..] == "partarml ";
    StripTrailing("partarml ");
    assert "partarml "[..8] == "partarml";
    StripKeeps("partarml");
  }
}
