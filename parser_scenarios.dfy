/**
 * The cases of packages/core/test/parser.test.ts, stated as lemmas about
 * the parser model. JSON.parse stays a parameter: the GRE case is stated
 * for any decoder that yields the test's sample payload.
 */
module ParserScenarios {
  import opened Wrappers
  import opened Json
  import opened Types
  import opened Parser

  const Logger: string := "[UnityCrossThreadLogger] "
  const RandomLine: string := Logger + "Some random log line"
  const SceneLine: string := Logger + "<== " + SceneMarker + "(" + MatchWord + ")"
  const MalformedLine: string := Logger + GreMarker + "({ broken json )"

  lemma NotInJoin(a: string, b: string, c: char)
    requires c !in a && c !in b
    ensures c !in a + b
  {
  }

  lemma RandomLineLacksGre()
    ensures !Contains(RandomLine, GreMarker)
  {
    assert GreMarker[0] == 'G';
    assert 'G' !in Logger && 'G' !in "Some random log line";
    NotInJoin(Logger, "Some random log line", 'G');
    MissingCharNotContained(RandomLine, GreMarker, 'G');
  }

  lemma RandomLineLacksScene()
    ensures !Contains(RandomLine, SceneMarker)
  {
    assert SceneMarker[6] == '.';
    assert '.' !in Logger && '.' !in "Some random log line";
    NotInJoin(Logger, "Some random log line", '.');
    MissingCharNotContained(RandomLine, SceneMarker, '.');
  }

  lemma RandomLineMarkers()
    ensures !Contains(RandomLine, GreMarker) && !Contains(RandomLine, SceneMarker)
  {
    RandomLineLacksGre();
    RandomLineLacksScene();
  }

  /** A line with neither marker yields no events. */
  lemma IgnoresNonGreLine(parse: string -> Option<Json>)
    ensures LineEvents(parse, RandomLine) == []
  {
    RandomLineMarkers();
  }

  /** A scene change to Match yields exactly one MatchStarted event. */
  lemma SceneChangeMatchStarts(parse: string -> Option<Json>)
    ensures LineEvents(parse, SceneLine) == [MatchStarted(SceneLine)]
  {
    assert GreMarker[0] == 'G';
    assert 'G' !in Logger && 'G' !in "<== " && 'G' !in SceneMarker && 'G' !in "(" && 'G' !in MatchWord && 'G' !in ")";
    MissingCharNotContained(SceneLine, GreMarker, 'G');
    ContainsPiece(Logger + "<== ", SceneMarker, "(" + MatchWord + ")");
    assert Logger + "<== " + SceneMarker + ("(" + MatchWord + ")") == SceneLine;
    ContainsPiece(Logger + "<== " + SceneMarker + "(", MatchWord, ")");
  }

  /** The malformed GRE line: it holds the marker but neither a closing brace nor a line break. */
  lemma MalformedLineFacts()
    ensures Contains(MalformedLine, GreMarker) && '}' !in MalformedLine && '\n' !in MalformedLine
  {
    ContainsPiece(Logger, GreMarker, "({ broken json )");
    MalformedLineLacks('}');
    MalformedLineLacks('\n');
  }

  lemma MalformedLineLacks(c: char)
    requires c == '}' || c == '\n'
    ensures c !in MalformedLine
  {
    assert c !in Logger && c !in GreMarker && c !in "({ broken json )";
    NotInJoin(Logger, GreMarker, c);
    NotInJoin(Logger + GreMarker, "({ broken json )", c);
  }

  /** A GRE line without a closing brace has no payload and yields no events. */
  lemma MalformedGreLineYieldsNothing(parse: string -> Option<Json>)
    ensures LineEvents(parse, MalformedLine) == []
  {
    MalformedLineFacts();
    NoClosingBraceNoPayload(MalformedLine);
  }

  function Zone(zoneType: int, ids: seq<Json>): Json {
    Obj(map["type" := Num(zoneType), "objectInstanceIds" := Arr(ids)])
  }

  function GameObject(instanceId: int, cardTitleId: int, grpId: int): Json {
    Obj(map["instanceId" := Num(instanceId), "cardTitleId" := Num(cardTitleId), "grpId" := Num(grpId)])
  }

  /** The test's game-state message: hand 101, 102 and battlefield 201. */
  function SampleGameState(): Json {
    Obj(map[
      "zones" := Arr([Zone(31, [Num(101), Num(102)]), Zone(28, [Num(201)])]),
      "gameObjects" := Arr([GameObject(101, 1001, 5001), GameObject(102, 1002, 5002), GameObject(201, 1003, 5003)])])
  }

  function SamplePayload(): Json {
    Obj(map["greToClientEvent" := Obj(map["greToClientMessages" := Arr([Obj(map["gameStateMessage" := SampleGameState()])])])])
  }

  function Card(mtgaId: int, grpId: int): ArenaCardIdentity {
    ArenaCardIdentity(Some(mtgaId), Some(grpId), None, None)
  }

  lemma GameObjectFacts(instanceId: int, cardTitleId: int, grpId: int, id: int)
    requires cardTitleId != 0
    ensures GameObject(instanceId, cardTitleId, grpId) != Null
    ensures HasInstanceId(GameObject(instanceId, cardTitleId, grpId), Num(id)) <==> instanceId == id
    ensures IdentityOf(GameObject(instanceId, cardTitleId, grpId)) == Card(cardTitleId, grpId)
  {
    var o := GameObject(instanceId, cardTitleId, grpId);
    assert Member(o, "instanceId") == Some(Num(instanceId));
    assert Member(o, "cardTitleId") == Some(Num(cardTitleId));
    assert Member(o, "grpId") == Some(Num(grpId));
  }

  /** `find` stops at the first element when it matches. */
  lemma FindHead(objs: seq<Json>, id: Json)
    requires |objs| > 0 && objs[0] != Null && HasInstanceId(objs[0], id)
    ensures FindObject(objs, id) == Ok(Some(objs[0]))
  {
  }

  /** `find` moves past a first element that does not match. */
  lemma FindSkip(objs: seq<Json>, id: Json)
    requires |objs| > 0 && PassesOver(objs[0], id)
    ensures FindObject(objs, id) == FindObject(objs[1..], id)
  {
  }

  function SampleObjects(): seq<Json> {
    [GameObject(101, 1001, 5001), GameObject(102, 1002, 5002), GameObject(201, 1003, 5003)]
  }

  lemma SampleFinds()
    ensures FindObject(SampleObjects(), Num(101)) == Ok(Some(GameObject(101, 1001, 5001)))
    ensures FindObject(SampleObjects(), Num(102)) == Ok(Some(GameObject(102, 1002, 5002)))
    ensures FindObject(SampleObjects(), Num(201)) == Ok(Some(GameObject(201, 1003, 5003)))
  {
    var os := SampleObjects();
    GameObjectFacts(101, 1001, 5001, 101);
    GameObjectFacts(101, 1001, 5001, 102);
    GameObjectFacts(101, 1001, 5001, 201);
    GameObjectFacts(102, 1002, 5002, 102);
    GameObjectFacts(102, 1002, 5002, 201);
    GameObjectFacts(201, 1003, 5003, 201);
    FindHead(os, Num(101));
    FindSkip(os, Num(102));
    FindHead(os[1..], Num(102));
    FindSkip(os, Num(201));
    FindSkip(os[1..], Num(201));
    assert os[1..][1..] == [GameObject(201, 1003, 5003)];
    FindHead(os[1..][1..], Num(201));
  }

  lemma ZoneFacts(zoneType: int, ids: seq<Json>)
    ensures Member(Zone(zoneType, ids), "objectInstanceIds") == Some(Arr(ids))
    ensures Member(Zone(zoneType, ids), "type") == Some(Num(zoneType))
    ensures Member(Zone(zoneType, ids), "name") == None
  {
  }

  lemma GameStateFacts()
    ensures Member(SampleGameState(), "gameObjects") == Some(Arr(SampleObjects()))
    ensures Member(SampleGameState(), "zones") == Some(Arr([Zone(31, [Num(101), Num(102)]), Zone(28, [Num(201)])]))
  {
  }

  /** One more id in front that finds an object adds that object's identity in front. */
  lemma FoundInFront(id: Json, ids: seq<Json>, go: Json, o: Json, rest: seq<ArenaCardIdentity>)
    requires FindIn(go, id) == Ok(Some(o)) && IdentitiesIn(ids, go) == Ok(rest)
    ensures IdentitiesIn([id] + ids, go) == Ok([IdentityOf(o)] + rest)
  {
    assert ([id] + ids)[0] == id && ([id] + ids)[1..] == ids;
  }

  /** extractIdentities over a non-empty id array, once its loop's result is known. */
  lemma IdentitiesOfArray(gsm: Json, ids: seq<Json>, os: seq<Json>, r: seq<ArenaCardIdentity>)
    requires Member(gsm, "gameObjects") == Some(Arr(os)) && ids != []
    requires IdentitiesIn(ids, Arr(os)) == Ok(r)
    ensures Identities(Some(Arr(ids)), gsm) == Ok(r)
  {
    assert Truthy(Some(Arr(ids))) && Truthy(Member(gsm, "gameObjects"));
    assert Iterate(Arr(ids)) == Some(ids);
  }

  lemma TwoZones(x: Json, y: Json, gsm: Json)
    ensures ZoneLists([x, y], gsm) == JoinLists(ZoneStep(x, gsm), JoinLists(ZoneStep(y, gsm), Ok(([], []))))
  {
    assert [x, y][0] == x && [x, y][1..] == [y] && [y][0] == y && [y][1..] == [];
    assert ZoneLists([y], gsm) == JoinLists(ZoneStep(y, gsm), ZoneLists([], gsm));
  }

  /** parseGameStateMessage over one hand zone followed by one battlefield zone. */
  lemma HandThenBattlefield(gsm: Json, h: Json, b: Json, hs: seq<ArenaCardIdentity>, bs: seq<ArenaCardIdentity>)
    requires h != Null && b != Null && IsHandZone(h) && !IsHandZone(b) && IsBattlefieldZone(b)
    requires Identities(Member(h, "objectInstanceIds"), gsm) == Ok(hs)
    requires Identities(Member(b, "objectInstanceIds"), gsm) == Ok(bs)
    requires Member(gsm, "zones") == Some(Arr([h, b]))
    ensures GameStateEvent(gsm) == Ok(GameStateChanged(hs, bs, gsm))
  {
    TwoZones(h, b, gsm);
    assert ZoneStep(h, gsm) == Ok((hs, []));
    assert ZoneStep(b, gsm) == Ok(([], bs));
    assert ZoneLists([h, b], gsm) == Ok((hs + ([] + []), [] + (bs + [])));
    assert hs + ([] + []) == hs && [] + (bs + []) == bs;
    assert Truthy(Member(gsm, "zones")) && Iterate(Arr([h, b])) == Some([h, b]);
  }

  /** parseGreMessage over a single message carrying a game state. */
  lemma OneGameState(payload: Json, msg: Json, gsm: Json, e: ArenaEvent)
    requires Messages(payload) == Some(Arr([msg])) && msg != Null && GameStateOf(msg) == Some(gsm)
    requires GameStateEvent(gsm) == Ok(e)
    ensures GreEvents(payload) == Ok([e])
  {
    assert [msg][1..] == [];
    assert MessageEvents([msg][1..]) == Ok([]);
    assert MessageEvents([msg]) == Prepend([e], Ok([]));
    assert [e] + [] == [e];
  }

  lemma ZoneKinds()
    ensures IsHandZone(Zone(31, [Num(101), Num(102)]))
    ensures !IsHandZone(Zone(28, [Num(201)])) && IsBattlefieldZone(Zone(28, [Num(201)]))
  {
    ZoneFacts(31, [Num(101), Num(102)]);
    ZoneFacts(28, [Num(201)]);
  }

  lemma TwoFound(gsm: Json, os: seq<Json>, i1: Json, i2: Json, o1: Json, o2: Json)
    requires Member(gsm, "gameObjects") == Some(Arr(os))
    requires FindObject(os, i1) == Ok(Some(o1)) && FindObject(os, i2) == Ok(Some(o2))
    ensures Identities(Some(Arr([i1, i2])), gsm) == Ok([IdentityOf(o1), IdentityOf(o2)])
  {
    var none: seq<Json> := [];
    assert IdentitiesIn(none, Arr(os)) == Ok([]);
    FoundInFront(i2, none, Arr(os), o2, []);
    assert [i2] + none == [i2] && [IdentityOf(o2)] + [] == [IdentityOf(o2)];
    FoundInFront(i1, [i2], Arr(os), o1, [IdentityOf(o2)]);
    assert [i1] + [i2] == [i1, i2] && [IdentityOf(o1)] + [IdentityOf(o2)] == [IdentityOf(o1), IdentityOf(o2)];
    IdentitiesOfArray(gsm, [i1, i2], os, [IdentityOf(o1), IdentityOf(o2)]);
  }

  lemma OneFound(gsm: Json, os: seq<Json>, i1: Json, o1: Json)
    requires Member(gsm, "gameObjects") == Some(Arr(os))
    requires FindObject(os, i1) == Ok(Some(o1))
    ensures Identities(Some(Arr([i1])), gsm) == Ok([IdentityOf(o1)])
  {
    var none: seq<Json> := [];
    assert IdentitiesIn(none, Arr(os)) == Ok([]);
    FoundInFront(i1, none, Arr(os), o1, []);
    assert [i1] + none == [i1] && [IdentityOf(o1)] + [] == [IdentityOf(o1)];
    IdentitiesOfArray(gsm, [i1], os, [IdentityOf(o1)]);
  }

  lemma SampleHand(gsm: Json)
    requires Member(gsm, "gameObjects") == Some(Arr(SampleObjects()))
    ensures Identities(Some(Arr([Num(101), Num(102)])), gsm) == Ok([Card(1001, 5001), Card(1002, 5002)])
  {
    SampleFinds();
    GameObjectFacts(101, 1001, 5001, 101);
    GameObjectFacts(102, 1002, 5002, 102);
    TwoFound(gsm, SampleObjects(), Num(101), Num(102), GameObject(101, 1001, 5001), GameObject(102, 1002, 5002));
  }

  lemma SampleBattlefield(gsm: Json)
    requires Member(gsm, "gameObjects") == Some(Arr(SampleObjects()))
    ensures Identities(Some(Arr([Num(201)])), gsm) == Ok([Card(1003, 5003)])
  {
    SampleFinds();
    GameObjectFacts(201, 1003, 5003, 201);
    OneFound(gsm, SampleObjects(), Num(201), GameObject(201, 1003, 5003));
  }

  lemma SampleMessages()
    ensures Messages(SamplePayload()) == Some(Arr([Obj(map["gameStateMessage" := SampleGameState()])]))
    ensures GameStateOf(Obj(map["gameStateMessage" := SampleGameState()])) == Some(SampleGameState())
  {
  }

  /** A GRE line whose payload decodes to the sample yields its one GameStateChanged. */
  lemma GreLineWithSamplePayload(parse: string -> Option<Json>, line: string)
    requires Contains(line, GreMarker) && Payload(line).Some? && parse(Payload(line).value) == Some(SamplePayload())
    ensures LineEvents(parse, line) ==
            [GameStateChanged([Card(1001, 5001), Card(1002, 5002)], [Card(1003, 5003)], SampleGameState())]
  {
    var gsm := SampleGameState();
    GameStateFacts();
    ZoneKinds();
    ZoneFacts(31, [Num(101), Num(102)]);
    ZoneFacts(28, [Num(201)]);
    SampleHand(gsm);
    SampleBattlefield(gsm);
    HandThenBattlefield(gsm, Zone(31, [Num(101), Num(102)]), Zone(28, [Num(201)]),
                        [Card(1001, 5001), Card(1002, 5002)], [Card(1003, 5003)]);
    SampleMessages();
    OneGameState(SamplePayload(), Obj(map["gameStateMessage" := gsm]), gsm,
                 GameStateChanged([Card(1001, 5001), Card(1002, 5002)], [Card(1003, 5003)], gsm));
  }

  // ---------------------------------------------------------------------
  // The test's GRE line around a stringified payload
  // ---------------------------------------------------------------------

  const GrePrefix: string := Logger + GreMarker + "("

  /** The test's line: the marker, then the stringified payload in parentheses. */
  function GreLine(text: string): string {
    GrePrefix + text + ")"
  }

  /** What JSON.stringify of an object gives: one line, braced. */
  predicate ObjectTextOnOneLine(text: string) {
    OnOneLine(text) && |text| >= 2 && text[0] == '{' && text[|text| - 1] == '}'
  }

  lemma NoTerminator(s: string)
    requires '\n' !in s && '\r' !in s && '\U{2028}' !in s && '\U{2029}' !in s
    ensures OnOneLine(s)
  {
    forall k | 0 <= k < |s|
      ensures !IsLineTerminator(s[k])
    {
      assert s[k] in s;
    }
  }

  /** The greedy match skips a stretch without '{'. */
  lemma {:induction false} BraceMatchSkips(s: string, from: nat, m: nat)
    requires from <= m <= |s| && forall k :: from <= k < m ==> s[k] != '{'
    ensures BraceMatch(s, from) == BraceMatch(s, m)
    decreases m - from
  {
    if from < m {
      BraceMatchSkips(s, from + 1, m);
    }
  }

  lemma RunToEnd(s: string, k: nat)
    requires k <= |s| && forall j :: k <= j < |s| ==> !IsLineTerminator(s[j])
    ensures RunEnd(s, k) == |s|
  {
  }

  lemma LastCloseAt(s: string, lo: nat, c: nat)
    requires lo <= c < |s| && s[c] == '}' && forall j :: c < j < |s| ==> s[j] != '}'
    ensures LastClose(s, lo, |s|) == Some(c)
  {
  }

  /**
   * Before a braced text on one line, with no '{' ahead of it and no '}'
   * or line break after it, the payload is exactly that text.
   */
  lemma PayloadOfWrapped(p: string, t: string, q: string)
    requires '{' !in p && OnOneLine(t) && OnOneLine(q) && '}' !in q
    requires |t| >= 2 && t[0] == '{' && t[|t| - 1] == '}'
    ensures Payload(p + t + q) == Some(t)
  {
    var line := p + t + q;
    var close := |p| + |t| - 1;
    assert forall k :: 0 <= k < |p| ==> line[k] == p[k];
    BraceMatchSkips(line, 0, |p|);
    assert forall k :: 0 <= k < |t| ==> line[|p| + k] == t[k];
    assert forall k :: 0 <= k < |q| ==> line[|p| + |t| + k] == q[k];
    RunToEnd(line, |p| + 1);
    LastCloseAt(line, |p| + 1, close);
    assert line[|p|..close + 1] == t;
  }

  lemma GrePrefixFacts()
    ensures '{' !in GrePrefix
  {
    assert '{' !in Logger;
    assert '{' !in GreMarker;
    assert '{' !in "(";
    NotInJoin(Logger, GreMarker, '{');
    NotInJoin(Logger + GreMarker, "(", '{');
  }

  /**
   * The test's GRE line yields one GameStateChanged with two hand cards and
   * one battlefield card, whenever the text in parentheses is what
   * JSON.stringify writes for an object and JSON.parse decodes it to the
   * sample payload.
   */
  lemma GreSampleParses(parse: string -> Option<Json>, text: string)
    requires ObjectTextOnOneLine(text) && parse(text) == Some(SamplePayload())
    ensures LineEvents(parse, GreLine(text)) ==
            [GameStateChanged([Card(1001, 5001), Card(1002, 5002)], [Card(1003, 5003)], SampleGameState())]
  {
    GrePrefixFacts();
    NoTerminator(")");
    assert '}' !in ")";
    PayloadOfWrapped(GrePrefix, text, ")");
    assert GreLine(text) == Logger + GreMarker + ("(" + text + ")");
    ContainsPiece(Logger, GreMarker, "(" + text + ")");
    GreLineWithSamplePayload(parse, GreLine(text));
  }
}
