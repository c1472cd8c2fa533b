/** The strict decoder of device commands (components/mybot/src/core/mybot_device_command.c). */
module CommandDecoder {
  import opened Options

  /** A number keeps its double and the integer read beside it. */
  datatype Json =
    | Null
    | True
    | False
    | Number(finite: bool, double: real, integer: int)
    | Str(text: string)
    | Array(items: seq<Json>)
    | Object(members: seq<Member>)

  datatype Member = Member(key: Option<string>, value: Json)

  datatype Emotion = Happy | Sad | Angry | Surprised

  datatype Action =
    | SetVolume(volume: int)
    | AdjustVolume(delta: int)
    | SetMute(muted: bool)
    | Show(emotion: Emotion)

  datatype Command = Command(messageId: string, commandId: string, conversationId: string, action: Action)

  const ID_CAPACITY := 128

  const TYPE := "type"
  const SCHEMA := "schema"
  const VERSION := "version"
  const MESSAGE_ID := "message_id"
  const COMMAND_ID := "command_id"
  const CONVERSATION_ID := "conversation_id"
  const COMMAND := "command"
  const NAME := "name"
  const PARAMS := "params"
  const DEVICE_COMMAND := "device_command"
  const COMMAND_SCHEMA := "botstation.device-command"
  const ACTION := "action"
  const SCENE := "scene"

  const ENVELOPE := [TYPE, SCHEMA, VERSION, MESSAGE_ID, COMMAND_ID, CONVERSATION_ID, COMMAND,
                     "issued_at", "expires_at"]
  const BODY := [TYPE, NAME, PARAMS]
  const EMOTIONS := ["emotion.happy", "emotion.sad", "emotion.angry", "emotion.surprised"]

  // ---- Objects with fixed fields ----

  /** Every key is one of the names, and none is repeated. */
  predicate Keyed(ms: seq<Member>, names: seq<string>) {
    && (forall i :: 0 <= i < |ms| ==> ms[i].key.Some? && ms[i].key.value in names)
    && (forall i, j :: 0 <= i < j < |ms| ==> ms[i].key != ms[j].key)
  }

  function Keys(ms: seq<Member>): set<string> {
    set i | 0 <= i < |ms| && ms[i].key.Some? :: ms[i].key.value
  }

  /** Known keys only, each once, and the first few names all there. */
  predicate Strict(j: Option<Json>, names: seq<string>, needed: nat) {
    && j.Some?
    && j.value.Object?
    && Keyed(j.value.members, names)
    && forall k :: 0 <= k < |names| && k < needed ==> names[k] in Keys(j.value.members)
  }

  /** The value of a key, wherever it stands. */
  function Field(ms: seq<Member>, name: string): Option<Json> {
    if ms == [] then None
    else if ms[|ms| - 1].key == Some(name) then Some(ms[|ms| - 1].value)
    else Field(ms[..|ms| - 1], name)
  }

  lemma {:induction false} FieldFinds(ms: seq<Member>, names: seq<string>, name: string)
    requires Keyed(ms, names)
    ensures Field(ms, name).Some? <==> name in Keys(ms)
    ensures forall i :: 0 <= i < |ms| && ms[i].key == Some(name) ==> Field(ms, name) == Some(ms[i].value)
  {
    if ms != [] {
      var front := ms[..|ms| - 1];
      FieldFinds(front, names, name);
      assert forall i :: 0 <= i < |front| ==> front[i] == ms[i];
      if name in Keys(ms) && ms[|ms| - 1].key != Some(name) {
        var i :| 0 <= i < |ms| && ms[i].key == Some(name);
        assert front[i].key == Some(name);
      }
    }
  }

  /** The word of seen fields, bit by bit, lowest first. */
  predicate Sees(seen: seq<bool>, ms: seq<Member>, names: seq<string>) {
    |seen| >= |names| && forall k :: 0 <= k < |names| ==> (seen[k] <==> names[k] in Keys(ms))
  }

  predicate DistinctNames(names: seq<string>) {
    forall i, j :: 0 <= i < j < |names| ==> names[i] != names[j]
  }

  /** needed: how many low bits the required mask has. */
  method ReadFields(node: Option<Json>, names: seq<string>, needed: nat, fields: array<Option<Json>>)
    returns (ok: bool)
    requires |names| <= fields.Length && |names| <= 32 && DistinctNames(names)
    modifies fields
    ensures ok == Strict(node, names, needed)
    ensures ok ==> forall k :: 0 <= k < |names| ==> fields[k] == Field(node.value.members, names[k])
  {
    if node.None? || !node.value.Object? {
      return false;
    }
    var ms := node.value.members;
    var k := 0;
    while k < |names|
      invariant 0 <= k <= |names|
      invariant forall j :: 0 <= j < k ==> fields[j] == None
    {
      fields[k] := None;
      k := k + 1;
    }
    var seen := seq(32, i => false);
    var n := 0;
    while n < |ms|
      invariant 0 <= n <= |ms|
      invariant Keyed(ms[..n], names) && |seen| == 32 && Sees(seen, ms[..n], names)
      invariant forall k :: 0 <= k < |names| ==> fields[k] == Field(ms[..n], names[k])
    {
      hide Strict, Keyed, Field, Keys, DistinctNames;
      var item := ms[n];
      var index := FindName(item.key, names);
      if index == |names| {
        UnknownKey(ms, n, names);
        return false;
      }
      if seen[index] {
        RepeatedKey(ms, n, names);
        return false;
      }
      KeyedSnoc(ms, n, names);
      FieldSnoc(ms, n, names, index);
      seen := seen[index := true];
      fields[index] := Some(item.value);
      n := n + 1;
    }
    assert ms[..n] == ms;
    ok := HasAll(seen, names, needed);
  }

  /** (seen & required) == required */
  method HasAll(seen: seq<bool>, names: seq<string>, needed: nat) returns (ok: bool)
    requires |names| <= |seen|
    ensures ok <==> forall j :: 0 <= j < |names| && j < needed ==> seen[j]
  {
    ok := true;
    var k := 0;
    while k < needed && k < |names|
      invariant 0 <= k <= |names|
      invariant ok <==> forall j :: 0 <= j < k && j < needed ==> seen[j]
    {
      ok := ok && seen[k];
      k := k + 1;
    }
  }

  lemma UnknownKey(ms: seq<Member>, n: nat, names: seq<string>)
    requires n < |ms| && (ms[n].key.None? || ms[n].key.value !in names)
    ensures !Keyed(ms, names)
  {
  }

  lemma FieldSnoc(ms: seq<Member>, n: nat, names: seq<string>, index: nat)
    requires n < |ms| && index < |names| && DistinctNames(names) && ms[n].key == Some(names[index])
    ensures forall k :: 0 <= k < |names| ==>
      Field(ms[..n + 1], names[k]) == if k == index then Some(ms[n].value) else Field(ms[..n], names[k])
    ensures forall k :: 0 <= k < |names| && k != index ==> names[k] != names[index]
  {
    assert ms[..n + 1][..n] == ms[..n] && ms[..n + 1][n] == ms[n];
    forall k | 0 <= k < |names| && k != index ensures names[k] != names[index] {
      if k < index {
        assert names[k] != names[index];
      } else {
        assert names[index] != names[k];
      }
    }
  }

  method FindName(key: Option<string>, names: seq<string>) returns (index: nat)
    ensures index <= |names|
    ensures index < |names| ==> key == Some(names[index])
    ensures index == |names| ==> key.None? || key.value !in names
  {
    index := 0;
    while index < |names| && (key.None? || key.value != names[index])
      invariant index <= |names|
      invariant forall i :: 0 <= i < index ==> key.None? || key.value != names[i]
    {
      index := index + 1;
    }
  }

  lemma RepeatedKey(ms: seq<Member>, n: nat, names: seq<string>)
    requires n < |ms| && ms[n].key.Some? && ms[n].key.value in Keys(ms[..n])
    ensures !Keyed(ms, names)
  {
    var i :| 0 <= i < n && ms[..n][i].key == Some(ms[n].key.value);
    assert ms[i].key == ms[n].key;
  }

  lemma KeyedSnoc(ms: seq<Member>, n: nat, names: seq<string>)
    requires n < |ms| && Keyed(ms[..n], names)
    requires ms[n].key.Some? && ms[n].key.value in names && ms[n].key.value !in Keys(ms[..n])
    ensures Keyed(ms[..n + 1], names)
    ensures Keys(ms[..n + 1]) == Keys(ms[..n]) + {ms[n].key.value}
  {
    var a, b := ms[..n], ms[..n + 1];
    assert forall i :: 0 <= i < n ==> b[i] == a[i];
    forall i | 0 <= i < n ensures b[i].key != b[n].key {
      assert a[i].key.Some? && a[i].key.value in Keys(a);
    }
    forall x | x in Keys(b) ensures x in Keys(a) + {ms[n].key.value} {
      var i :| 0 <= i < |b| && b[i].key == Some(x);
      if i < n {
        assert a[i].key == Some(x);
      }
    }
    forall x | x in Keys(a) ensures x in Keys(b) {
      var i :| 0 <= i < |a| && a[i].key == Some(x);
      assert b[i].key == Some(x);
    }
    assert b[n].key.value in Keys(b);
  }

  // ---- Values ----

  predicate IsText(j: Option<Json>, text: string) {
    j == Some(Str(text))
  }

  predicate IsId(j: Option<Json>) {
    j.Some? && j.value.Str? && 0 < |j.value.text| < ID_CAPACITY
  }

  predicate IsInteger(j: Option<Json>, low: int, high: int) {
    && j.Some?
    && j.value.Number?
    && j.value.finite
    && low as real <= j.value.double <= high as real
    && j.value.double == j.value.integer as real
  }

  function EmotionNamed(i: nat): Emotion {
    if i == 0 then Happy else if i == 1 then Sad else if i == 2 then Angry else Surprised
  }

  // ---- What a command document says ----

  /** The document of a command's action: its kind, its name and its parameters. */
  predicate Acts(kind: Option<Json>, name: Option<Json>, params: Option<Json>, a: Action) {
    match a
    case SetVolume(v) =>
      && IsText(kind, ACTION) && IsText(name, "audio.set_volume") && Strict(params, ["level"], 1)
      && IsInteger(Field(params.value.members, "level"), 0, 100)
      && Field(params.value.members, "level").value.integer == v
    case AdjustVolume(d) =>
      && IsText(kind, ACTION) && IsText(name, "audio.adjust_volume") && Strict(params, ["delta"], 1)
      && IsInteger(Field(params.value.members, "delta"), -100, 100)
      && Field(params.value.members, "delta").value.integer == d
    case SetMute(m) =>
      && IsText(kind, ACTION) && IsText(name, "audio.set_mute") && Strict(params, ["muted"], 1)
      && Field(params.value.members, "muted") == Some(if m then True else False)
    case Show(e) =>
      && IsText(kind, SCENE) && params == Some(Object([]))
      && exists i :: 0 <= i < |EMOTIONS| && IsText(name, EMOTIONS[i]) && e == EmotionNamed(i)
  }

  predicate StatesAction(body: Option<Json>, a: Action) {
    && Strict(body, BODY, 3)
    && (var ms := body.value.members; Acts(Field(ms, TYPE), Field(ms, NAME), Field(ms, PARAMS), a))
  }

  predicate IsCommandDocument(ms: seq<Member>) {
    && IsText(Field(ms, TYPE), DEVICE_COMMAND)
    && IsText(Field(ms, SCHEMA), COMMAND_SCHEMA)
    && IsInteger(Field(ms, VERSION), 1, 1)
  }

  predicate Names(ms: seq<Member>, key: string, id: string) {
    IsId(Field(ms, key)) && Field(ms, key) == Some(Str(id))
  }

  /** The document states the command, and nothing it does not know. */
  predicate Describes(root: Option<Json>, c: Command) {
    && Strict(root, ENVELOPE, 7)
    && (var ms := root.value.members;
        && IsCommandDocument(ms)
        && Names(ms, MESSAGE_ID, c.messageId)
        && Names(ms, COMMAND_ID, c.commandId)
        && Names(ms, CONVERSATION_ID, c.conversationId)
        && StatesAction(Field(ms, COMMAND), c.action))
  }

  lemma ActsOnce(kind: Option<Json>, name: Option<Json>, params: Option<Json>, a: Action, b: Action)
    requires Acts(kind, name, params, a) && Acts(kind, name, params, b)
    ensures a == b
  {
    hide Field, Strict;
    TextsDiffer();
  }

  lemma TextsDiffer()
    ensures ACTION != SCENE
    ensures "audio.set_volume" != "audio.adjust_volume" && "audio.set_volume" != "audio.set_mute"
    ensures "audio.adjust_volume" != "audio.set_mute"
    ensures DistinctNames(EMOTIONS) && DistinctNames(ENVELOPE) && DistinctNames(BODY)
  {
    assert ACTION[0] != SCENE[0];
    assert |"audio.set_mute"| < |"audio.set_volume"| < |"audio.adjust_volume"|;
    assert |EMOTIONS[0]| == 13 && |EMOTIONS[1]| == 11 && |EMOTIONS[2]| == 13 && |EMOTIONS[3]| == 17;
    assert EMOTIONS[0][8] != EMOTIONS[2][8];
    assert |ENVELOPE[0]| == 4 && |ENVELOPE[1]| == 6 && |ENVELOPE[2]| == 7 && |ENVELOPE[3]| == 10 &&
      |ENVELOPE[4]| == 10 && |ENVELOPE[5]| == 15 && |ENVELOPE[6]| == 7 && |ENVELOPE[7]| == 9 && |ENVELOPE[8]| == 10;
    assert ENVELOPE[3][0] == 'm' && ENVELOPE[4][0] == 'c' && ENVELOPE[8][0] == 'e';
    assert ENVELOPE[2][0] == 'v' && ENVELOPE[6][0] == 'c';
    assert BODY[0][0] == 't' && BODY[1][0] == 'n' && BODY[2][0] == 'p';
  }

  /** A document states at most one command. */
  lemma DescribesOnce(root: Option<Json>, c: Command, d: Command)
    requires Describes(root, c) && Describes(root, d)
    ensures c == d
  {
    ActionOnce(Field(root.value.members, COMMAND), c.action, d.action);
    hide StatesAction, Strict, Field, IsCommandDocument;
  }

  lemma ActionOnce(body: Option<Json>, a: Action, b: Action)
    requires StatesAction(body, a) && StatesAction(body, b)
    ensures a == b
  {
    var ms := body.value.members;
    ActsOnce(Field(ms, TYPE), Field(ms, NAME), Field(ms, PARAMS), a, b);
  }

  lemma KeysWithin(a: seq<Member>, b: seq<Member>)
    requires forall x :: x in a ==> x in b
    ensures Keys(a) <= Keys(b)
  {
    forall name | name in Keys(a) ensures name in Keys(b) {
      var i :| 0 <= i < |a| && a[i].key == Some(name);
      assert a[i] in b;
      var j :| 0 <= j < |b| && b[j] == a[i];
      assert b[j].key == Some(name);
    }
  }

  /** The order of the members is free: fields go by key alone. */
  lemma FieldsGoByKey(a: seq<Member>, b: seq<Member>, names: seq<string>, name: string)
    requires Keyed(a, names) && Keyed(b, names)
    requires forall x :: x in a <==> x in b
    ensures Field(a, name) == Field(b, name)
  {
    FieldFinds(a, names, name);
    FieldFinds(b, names, name);
    KeysWithin(a, b);
    KeysWithin(b, a);
    hide Field, Keyed;
    if name in Keys(a) {
      var i :| 0 <= i < |a| && a[i].key == Some(name);
      assert a[i] in b;
      var j :| 0 <= j < |b| && b[j] == a[i];
    }
  }

  // ---- Writing a command ----

  function One(key: string, value: Json): Member {
    Member(Some(key), value)
  }

  function Whole(n: int): Json {
    Number(true, n as real, n)
  }

  function EmotionIndex(e: Emotion): nat {
    match e case Happy => 0 case Sad => 1 case Angry => 2 case Surprised => 3
  }

  function ActionBody(a: Action): seq<Member> {
    match a
    case SetVolume(v) => Body(ACTION, "audio.set_volume", [One("level", Whole(v))])
    case AdjustVolume(d) => Body(ACTION, "audio.adjust_volume", [One("delta", Whole(d))])
    case SetMute(m) => Body(ACTION, "audio.set_mute", [One("muted", if m then True else False)])
    case Show(e) => Body(SCENE, EMOTIONS[EmotionIndex(e)], [])
  }

  function Body(kind: string, name: string, params: seq<Member>): seq<Member> {
    [One(TYPE, Str(kind)), One(NAME, Str(name)), One(PARAMS, Object(params))]
  }

  function Document(c: Command): Json {
    Object([
      One(TYPE, Str(DEVICE_COMMAND)),
      One(SCHEMA, Str(COMMAND_SCHEMA)),
      One(VERSION, Whole(1)),
      One(MESSAGE_ID, Str(c.messageId)),
      One(COMMAND_ID, Str(c.commandId)),
      One(CONVERSATION_ID, Str(c.conversationId)),
      One(COMMAND, Object(ActionBody(c.action)))])
  }

  predicate Sendable(c: Command) {
    && 0 < |c.messageId| < ID_CAPACITY
    && 0 < |c.commandId| < ID_CAPACITY
    && 0 < |c.conversationId| < ID_CAPACITY
    && InRange(c.action)
  }

  /** Members that carry the first names in order are strict and found by name. */
  lemma InOrder(ms: seq<Member>, names: seq<string>)
    requires DistinctNames(names) && |ms| <= |names|
    requires forall i :: 0 <= i < |ms| ==> ms[i].key == Some(names[i])
    ensures Strict(Some(Object(ms)), names, |ms|)
    ensures forall i :: 0 <= i < |ms| ==> Field(ms, names[i]) == Some(ms[i].value)
  {
    assert Keyed(ms, names);
    forall i | 0 <= i < |ms|
      ensures Field(ms, names[i]) == Some(ms[i].value) && names[i] in Keys(ms)
    {
      assert ms[i].key == Some(names[i]);
      FieldFinds(ms, names, names[i]);
    }
    hide Field;
  }

  predicate InRange(a: Action) {
    && (a.SetVolume? ==> 0 <= a.volume <= 100)
    && (a.AdjustVolume? ==> -100 <= a.delta <= 100)
  }

  /** What the writer writes, the decoder reads back; and only commands within range. */
  lemma DocumentDescribes(c: Command)
    ensures Describes(Some(Document(c)), c) <==> Sendable(c)
  {
    var ms := Document(c).members;
    DocumentFields(c);
    BodyActs(c.action);
    hide Field, Strict, StatesAction, ActionBody, Document;
  }

  lemma DocumentFields(c: Command)
    ensures var ms := Document(c).members;
      && Strict(Some(Document(c)), ENVELOPE, 7)
      && IsCommandDocument(ms)
      && Field(ms, MESSAGE_ID) == Some(Str(c.messageId))
      && Field(ms, COMMAND_ID) == Some(Str(c.commandId))
      && Field(ms, CONVERSATION_ID) == Some(Str(c.conversationId))
      && Field(ms, COMMAND) == Some(Object(ActionBody(c.action)))
  {
    hide TYPE, SCHEMA, VERSION, MESSAGE_ID, COMMAND_ID, CONVERSATION_ID, COMMAND, NAME, PARAMS;
    hide DEVICE_COMMAND, COMMAND_SCHEMA, ACTION, SCENE;
    TextsDiffer();
    var ms := Document(c).members;
    InOrder(ms, ENVELOPE);
    hide Field, Strict, ActionBody;
    assert ENVELOPE[0] == TYPE && ENVELOPE[1] == SCHEMA && ENVELOPE[2] == VERSION;
    assert ENVELOPE[3] == MESSAGE_ID && ENVELOPE[4] == COMMAND_ID;
    assert ENVELOPE[5] == CONVERSATION_ID && ENVELOPE[6] == COMMAND;
  }

  lemma LoneField(key: string, value: Json)
    ensures Strict(Some(Object([One(key, value)])), [key], 1)
    ensures Field([One(key, value)], key) == Some(value)
  {
    InOrder([One(key, value)], [key]);
  }

  lemma BodyActs(a: Action)
    ensures StatesAction(Some(Object(ActionBody(a))), a) <==> InRange(a)
  {
    TextsDiffer();
    var body := ActionBody(a);
    InOrder(body, BODY);
    assert BODY[0] == TYPE && BODY[1] == NAME && BODY[2] == PARAMS;
    match a
    case SetVolume(v) =>
      LoneField("level", Whole(v));
      hide Field, Strict;
    case AdjustVolume(d) =>
      LoneField("delta", Whole(d));
      hide Field, Strict;
    case SetMute(m) =>
      LoneField("muted", if m then True else False);
      hide Field, Strict;
    case Show(e) =>
      hide Field, Strict;
      assert IsText(Field(body, NAME), EMOTIONS[EmotionIndex(e)]);
  }

  // ---- The documents, spelled out ----

  /** The command's body as the service writes it. */
  function WrittenBody(a: Action): Json {
    match a
    case SetVolume(v) =>
      Object([One("type", Str("action")), One("name", Str("audio.set_volume")),
              One("params", Object([One("level", Number(true, v as real, v))]))])
    case AdjustVolume(d) =>
      Object([One("type", Str("action")), One("name", Str("audio.adjust_volume")),
              One("params", Object([One("delta", Number(true, d as real, d))]))])
    case SetMute(m) =>
      Object([One("type", Str("action")), One("name", Str("audio.set_mute")),
              One("params", Object([One("muted", if m then True else False)]))])
    case Show(e) =>
      Object([One("type", Str("scene")),
              One("name", Str(match e
                case Happy => "emotion.happy"
                case Sad => "emotion.sad"
                case Angry => "emotion.angry"
                case Surprised => "emotion.surprised")),
              One("params", Object([]))])
  }

  /** The whole document, with the two times the device does not look at if they are given. */
  function WrittenCommand(c: Command, times: seq<Json>): Json
    requires |times| <= 2
  {
    Object([One("type", Str("device_command")),
            One("schema", Str("botstation.device-command")),
            One("version", Number(true, 1.0, 1)),
            One("message_id", Str(c.messageId)),
            One("command_id", Str(c.commandId)),
            One("conversation_id", Str(c.conversationId)),
            One("command", WrittenBody(c.action))] + Times(times))
  }

  function Times(times: seq<Json>): seq<Member>
    requires |times| <= 2
  {
    if times == [] then []
    else if |times| == 1 then [One("issued_at", times[0])]
    else [One("issued_at", times[0]), One("expires_at", times[1])]
  }

  lemma WrittenBodyIs(a: Action)
    ensures WrittenBody(a) == Object(ActionBody(a))
  {
  }

  /** A document as the service writes it states its command, exactly when its ids have 1 to 127
      characters, a volume is from 0 to 100 and a change of volume from -100 to 100. */
  lemma WrittenCommandsAreRead(c: Command, times: seq<Json>)
    requires |times| <= 2
    ensures Describes(Some(WrittenCommand(c, times)), c) <==>
      && 1 <= |c.messageId| <= 127 && 1 <= |c.commandId| <= 127 && 1 <= |c.conversationId| <= 127
      && (c.action.SetVolume? ==> 0 <= c.action.volume <= 100)
      && (c.action.AdjustVolume? ==> -100 <= c.action.delta <= 100)
  {
    WrittenFields(c, times);
    WrittenBodyIs(c.action);
    BodyActs(c.action);
    hide Field, Strict, StatesAction, ActionBody, WrittenCommand, WrittenBody;
  }

  lemma WrittenFields(c: Command, times: seq<Json>)
    requires |times| <= 2
    ensures var ms := WrittenCommand(c, times).members;
      && Strict(Some(WrittenCommand(c, times)), ENVELOPE, 7)
      && IsCommandDocument(ms)
      && Field(ms, MESSAGE_ID) == Some(Str(c.messageId))
      && Field(ms, COMMAND_ID) == Some(Str(c.commandId))
      && Field(ms, CONVERSATION_ID) == Some(Str(c.conversationId))
      && Field(ms, COMMAND) == Some(WrittenBody(c.action))
  {
    WrittenKeys(c, times);
    var ms := WrittenCommand(c, times).members;
    TextsDiffer();
    hide TYPE, SCHEMA, VERSION, MESSAGE_ID, COMMAND_ID, CONVERSATION_ID, COMMAND, NAME, PARAMS;
    hide Field, Strict, WrittenBody, WrittenCommand;
    InOrder(ms, ENVELOPE);
    StrictLess(Some(Object(ms)), ENVELOPE, |ms|, 7);
    assert ENVELOPE[0] == TYPE && ENVELOPE[1] == SCHEMA && ENVELOPE[2] == VERSION;
    assert ENVELOPE[3] == MESSAGE_ID && ENVELOPE[4] == COMMAND_ID;
    assert ENVELOPE[5] == CONVERSATION_ID && ENVELOPE[6] == COMMAND;
  }

  lemma WrittenKeys(c: Command, times: seq<Json>)
    requires |times| <= 2
    ensures var j := WrittenCommand(c, times);
      && j.Object? && 7 <= |j.members| <= |ENVELOPE|
      && (forall i :: 0 <= i < |j.members| ==> j.members[i].key == Some(ENVELOPE[i]))
      && j.members[0].value == Str(DEVICE_COMMAND) && j.members[1].value == Str(COMMAND_SCHEMA)
      && j.members[2].value == Number(true, 1.0, 1)
      && j.members[3].value == Str(c.messageId) && j.members[4].value == Str(c.commandId)
      && j.members[5].value == Str(c.conversationId) && j.members[6].value == WrittenBody(c.action)
  {
    hide WrittenBody;
  }

  lemma StrictLess(j: Option<Json>, names: seq<string>, more: nat, needed: nat)
    requires Strict(j, names, more) && needed <= more
    ensures Strict(j, names, needed)
  {
  }

  // ---- The decoder ----

  method ReadInteger(value: Option<Json>, minimum: int, maximum: int) returns (result: Option<int>)
    requires minimum <= maximum
    ensures result.Some? <==> IsInteger(value, minimum, maximum)
    ensures result.Some? ==> result.value == value.value.integer && minimum <= result.value <= maximum
  {
    if value.None? || !value.value.Number? || !value.value.finite ||
       value.value.double < minimum as real || value.value.double > maximum as real ||
       value.value.double != value.value.integer as real {
      return None;
    }
    result := Some(value.value.integer);
  }

  method ReadId(value: Option<Json>) returns (id: Option<string>)
    ensures id.Some? <==> IsId(value)
    ensures id.Some? ==> value == Some(Str(id.value))
  {
    if value.None? || !value.value.Str? {
      return None;
    }
    var text := value.value.text;
    if |text| == 0 || |text| >= ID_CAPACITY {
      return None;
    }
    id := Some(text);
  }

  method ReadAction(name: Option<Json>, params: Option<Json>) returns (action: Option<Action>)
    ensures forall a: Action :: !a.Show? ==> (action == Some(a) <==> Acts(Some(Str(ACTION)), name, params, a))
    ensures action.Some? ==> !action.value.Show?
  {
    TextsDiffer();
    action := None;
    var field := new Option<Json>[1](_ => None);
    if IsText(name, "audio.set_volume") {
      var ok := ReadFields(params, ["level"], 1, field);
      if ok {
        var volume := ReadInteger(field[0], 0, 100);
        action := if volume.Some? then Some(SetVolume(volume.value)) else None;
      }
    } else if IsText(name, "audio.adjust_volume") {
      var ok := ReadFields(params, ["delta"], 1, field);
      if ok {
        var delta := ReadInteger(field[0], -100, 100);
        action := if delta.Some? then Some(AdjustVolume(delta.value)) else None;
      }
    } else if IsText(name, "audio.set_mute") {
      var ok := ReadFields(params, ["muted"], 1, field);
      if ok && (field[0] == Some(True) || field[0] == Some(False)) {
        action := Some(SetMute(field[0] == Some(True)));
      }
    }
  }

  method ReadEmotion(name: Option<Json>, params: Option<Json>) returns (action: Option<Action>)
    ensures forall a: Action :: a.Show? ==> (action == Some(a) <==> Acts(Some(Str(SCENE)), name, params, a))
    ensures action.Some? ==> action.value.Show?
  {
    TextsDiffer();
    var index := 0;
    while index < |EMOTIONS| && !IsText(name, EMOTIONS[index])
      invariant index <= |EMOTIONS|
      invariant forall i :: 0 <= i < index ==> !IsText(name, EMOTIONS[i])
    {
      index := index + 1;
    }
    if index == |EMOTIONS| {
      return None;
    }
    if params.None? || !params.value.Object? || params.value.members != [] {
      return None;
    }
    action := Some(Show(EmotionNamed(index)));
  }

  /** Accepts exactly the documents that state a command, and returns that command. */
  method Parse(root: Option<Json>) returns (command: Option<Command>)
    ensures forall c: Command :: command == Some(c) <==> Describes(root, c)
  {
    hide TYPE, SCHEMA, VERSION, MESSAGE_ID, COMMAND_ID, CONVERSATION_ID, COMMAND, ENVELOPE;
    hide DEVICE_COMMAND, COMMAND_SCHEMA, Field, Strict, StatesAction;
    command := None;
    var fields := new Option<Json>[9](_ => None);
    var ok := ReadEnvelope(root, fields);
    if !ok || !IsText(fields[0], DEVICE_COMMAND) || !IsText(fields[1], COMMAND_SCHEMA) {
      return;
    }
    var version := ReadInteger(fields[2], 1, 1);
    if version.None? {
      return;
    }
    var messageId := ReadId(fields[3]);
    var commandId := ReadId(fields[4]);
    var conversationId := ReadId(fields[5]);
    if messageId.None? || commandId.None? || conversationId.None? {
      return;
    }
    var action := ParseBody(fields[6]);
    if action.Some? {
      command := Some(Command(messageId.value, commandId.value, conversationId.value, action.value));
    }
  }

  method ReadEnvelope(root: Option<Json>, fields: array<Option<Json>>) returns (ok: bool)
    requires fields.Length == 9
    modifies fields
    ensures ok == Strict(root, ENVELOPE, 7)
    ensures ok ==> root.Some? && root.value.Object?
    ensures ok ==> fields[..7] == [
      Field(root.value.members, TYPE), Field(root.value.members, SCHEMA),
      Field(root.value.members, VERSION), Field(root.value.members, MESSAGE_ID),
      Field(root.value.members, COMMAND_ID), Field(root.value.members, CONVERSATION_ID),
      Field(root.value.members, COMMAND)]
  {
    hide TYPE, SCHEMA, VERSION, MESSAGE_ID, COMMAND_ID, CONVERSATION_ID, COMMAND, NAME, PARAMS;
    TextsDiffer();
    ok := ReadFields(root, ENVELOPE, 7, fields);
    hide Field, Keyed;
    assert ENVELOPE[..7] == [TYPE, SCHEMA, VERSION, MESSAGE_ID, COMMAND_ID, CONVERSATION_ID, COMMAND];
  }

  method ParseBody(body: Option<Json>) returns (action: Option<Action>)
    ensures forall a: Action :: action == Some(a) <==> StatesAction(body, a)
  {
    TextsDiffer();
    action := None;
    var fields := new Option<Json>[3](_ => None);
    var ok := ReadFields(body, BODY, 3, fields);
    if !ok {
      return;
    }
    assert BODY[0] == TYPE && BODY[1] == NAME && BODY[2] == PARAMS;
    if IsText(fields[0], ACTION) {
      action := ReadAction(fields[1], fields[2]);
    } else if IsText(fields[0], SCENE) {
      action := ReadEmotion(fields[1], fields[2]);
    }
  }
}
