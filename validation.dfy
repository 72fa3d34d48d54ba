/**
 * Request validation (backend/src/validation.ts). Each zod schema is kept as
 * data — a list of checks — and each request parser returns the parsed,
 * defaulted request or `None`. The parsers' contracts restate acceptance in
 * plain words (lengths, character class, presence), which the lemmas below
 * connect to the schemas.
 */
module Validation {
  import opened Common
  import opened Types

  /** The character class `[a-zA-Z0-9_\-]`. */
  predicate IsNameChar(c: char)
  {
    ('a' <= c <= 'z') || ('A' <= c <= 'Z') || ('0' <= c <= '9') || c == '_' || c == '-'
  }

  /** The anchored pattern `^[a-zA-Z0-9_\-]+$`, matched one character at a time. */
  predicate MatchesNamePattern(s: string)
    decreases |s|
  {
    |s| >= 1 && IsNameChar(s[0]) && (|s| == 1 || MatchesNamePattern(s[1..]))
  }

  /** One refinement of `z.string()`. */
  datatype StringCheck = MinLength(min: nat) | MaxLength(max: nat) | NamePattern

  predicate Passes(check: StringCheck, s: string)
  {
    match check
    case MinLength(n) => |s| >= n
    case MaxLength(n) => |s| <= n
    case NamePattern => MatchesNamePattern(s)
  }

  /** A string schema accepts a string that passes every one of its checks. */
  predicate Conforms(schema: seq<StringCheck>, s: string)
  {
    schema == [] || (Passes(schema[0], s) && Conforms(schema[1..], s))
  }

  const UsernameSchema: seq<StringCheck> := [MinLength(2), MaxLength(32), NamePattern]
  const RoomSchema: seq<StringCheck> := [MinLength(2), MaxLength(50), NamePattern]
  const TextSchema: seq<StringCheck> := [MinLength(1), MaxLength(1000)]
  const CiphertextSchema: seq<StringCheck> := [MinLength(1)]
  const NonceSchema: seq<StringCheck> := [MinLength(1)]
  const AlgorithmSchema: seq<StringCheck> := [MinLength(1), MaxLength(64)]
  const PublicKeySchema: seq<StringCheck> := [MinLength(16)]

  /** A JSON number with no fractional part. */
  predicate IsInteger(x: real)
  {
    x == x.Floor as real
  }

  /** One refinement of `z.number()`. */
  datatype NumberCheck = Integer | AtLeast(bound: int) | AtMost(bound: int)

  predicate NumberPasses(check: NumberCheck, x: real)
  {
    match check
    case Integer => IsInteger(x)
    case AtLeast(n) => x >= n as real
    case AtMost(n) => x <= n as real
  }

  predicate NumberConforms(schema: seq<NumberCheck>, x: real)
  {
    schema == [] || (NumberPasses(schema[0], x) && NumberConforms(schema[1..], x))
  }

  const OffsetSchema: seq<NumberCheck> := [Integer, AtLeast(0)]
  const OffsetDefault: int := 0
  const LimitSchema: seq<NumberCheck> := [Integer, AtLeast(1), AtMost(50)]
  const LimitDefault: int := 10

  // ---- What the schemas mean, in plain words ----

  predicate AllNameChars(s: string)
  {
    forall i :: 0 <= i < |s| ==> IsNameChar(s[i])
  }

  predicate IsUsername(s: string)
  {
    2 <= |s| <= 32 && AllNameChars(s)
  }

  predicate IsRoom(s: string)
  {
    2 <= |s| <= 50 && AllNameChars(s)
  }

  predicate IsText(s: string)
  {
    1 <= |s| <= 1000
  }

  predicate IsAlgorithm(s: string)
  {
    1 <= |s| <= 64
  }

  predicate IsOffset(x: real)
  {
    IsInteger(x) && x >= 0.0
  }

  predicate IsLimit(x: real)
  {
    IsInteger(x) && 1.0 <= x <= 50.0
  }

  lemma {:induction false} NamePatternMeansNameChars(s: string)
    ensures MatchesNamePattern(s) <==> |s| >= 1 && AllNameChars(s)
    decreases |s|
  {
    if |s| > 1 {
      NamePatternMeansNameChars(s[1..]);
      if AllNameChars(s) {
        assert AllNameChars(s[1..]) by {
          forall i | 0 <= i < |s[1..]| ensures IsNameChar(s[1..][i]) {
            assert s[1..][i] == s[i + 1];
          }
        }
      }
      if MatchesNamePattern(s) {
        forall i | 0 <= i < |s| ensures IsNameChar(s[i]) {
          if i > 0 {
            assert s[i] == s[1..][i - 1];
          }
        }
      }
    }
  }

  /** A schema accepts exactly what every one of its checks accepts. */
  lemma {:induction false} ConformsEvery(schema: seq<StringCheck>, s: string)
    ensures Conforms(schema, s) <==> forall i :: 0 <= i < |schema| ==> Passes(schema[i], s)
  {
    if schema != [] {
      ConformsEvery(schema[1..], s);
      assert forall i :: 1 <= i < |schema| ==> schema[i] == schema[1..][i - 1];
    }
  }

  lemma {:induction false} NumberConformsEvery(schema: seq<NumberCheck>, x: real)
    ensures NumberConforms(schema, x) <==> forall i :: 0 <= i < |schema| ==> NumberPasses(schema[i], x)
  {
    if schema != [] {
      NumberConformsEvery(schema[1..], x);
      assert forall i :: 1 <= i < |schema| ==> schema[i] == schema[1..][i - 1];
    }
  }

  lemma UsernameSchemaMeaning(s: string)
    ensures Conforms(UsernameSchema, s) <==> IsUsername(s)
  {
    NamePatternMeansNameChars(s);
    ConformsEvery(UsernameSchema, s);
    assert Passes(UsernameSchema[0], s) && Passes(UsernameSchema[1], s) && Passes(UsernameSchema[2], s)
      ==> forall i :: 0 <= i < 3 ==> Passes(UsernameSchema[i], s);
  }

  lemma RoomSchemaMeaning(s: string)
    ensures Conforms(RoomSchema, s) <==> IsRoom(s)
  {
    NamePatternMeansNameChars(s);
    ConformsEvery(RoomSchema, s);
    assert Passes(RoomSchema[0], s) && Passes(RoomSchema[1], s) && Passes(RoomSchema[2], s)
      ==> forall i :: 0 <= i < 3 ==> Passes(RoomSchema[i], s);
  }

  lemma ShortSchemasMeaning(s: string)
    ensures Conforms(TextSchema, s) <==> IsText(s)
    ensures Conforms(CiphertextSchema, s) <==> |s| >= 1
    ensures Conforms(NonceSchema, s) <==> |s| >= 1
    ensures Conforms(AlgorithmSchema, s) <==> IsAlgorithm(s)
    ensures Conforms(PublicKeySchema, s) <==> |s| >= 16
  {
    ConformsEvery(TextSchema, s);
    ConformsEvery(CiphertextSchema, s);
    ConformsEvery(NonceSchema, s);
    ConformsEvery(AlgorithmSchema, s);
    ConformsEvery(PublicKeySchema, s);
    assert Passes(TextSchema[0], s) && Passes(TextSchema[1], s)
      ==> forall i :: 0 <= i < 2 ==> Passes(TextSchema[i], s);
    assert Passes(AlgorithmSchema[0], s) && Passes(AlgorithmSchema[1], s)
      ==> forall i :: 0 <= i < 2 ==> Passes(AlgorithmSchema[i], s);
  }

  lemma NumberSchemasMeaning(x: real)
    ensures NumberConforms(OffsetSchema, x) <==> IsOffset(x)
    ensures NumberConforms(LimitSchema, x) <==> IsLimit(x)
  {
    NumberConformsEvery(OffsetSchema, x);
    NumberConformsEvery(LimitSchema, x);
    assert NumberPasses(OffsetSchema[0], x) && NumberPasses(OffsetSchema[1], x)
      ==> forall i :: 0 <= i < 2 ==> NumberPasses(OffsetSchema[i], x);
    assert NumberPasses(LimitSchema[0], x) && NumberPasses(LimitSchema[1], x) && NumberPasses(LimitSchema[2], x)
      ==> forall i :: 0 <= i < 3 ==> NumberPasses(LimitSchema[i], x);
  }

  /** The schema lemmas above, for every string and number at once. */
  lemma SchemasMeaning()
    ensures forall s :: Conforms(UsernameSchema, s) <==> IsUsername(s)
    ensures forall s :: Conforms(RoomSchema, s) <==> IsRoom(s)
    ensures forall s :: Conforms(TextSchema, s) <==> IsText(s)
    ensures forall s :: Conforms(CiphertextSchema, s) <==> |s| >= 1
    ensures forall s :: Conforms(NonceSchema, s) <==> |s| >= 1
    ensures forall s :: Conforms(AlgorithmSchema, s) <==> IsAlgorithm(s)
    ensures forall s :: Conforms(PublicKeySchema, s) <==> |s| >= 16
    ensures forall x :: NumberConforms(OffsetSchema, x) <==> IsOffset(x)
    ensures forall x :: NumberConforms(LimitSchema, x) <==> IsLimit(x)
  {
    forall s: string ensures Conforms(UsernameSchema, s) <==> IsUsername(s) {
      UsernameSchemaMeaning(s);
    }
    forall s: string ensures Conforms(RoomSchema, s) <==> IsRoom(s) {
      RoomSchemaMeaning(s);
    }
    forall s: string
      ensures Conforms(TextSchema, s) <==> IsText(s)
      ensures Conforms(CiphertextSchema, s) <==> |s| >= 1
      ensures Conforms(NonceSchema, s) <==> |s| >= 1
      ensures Conforms(AlgorithmSchema, s) <==> IsAlgorithm(s)
      ensures Conforms(PublicKeySchema, s) <==> |s| >= 16
    {
      ShortSchemasMeaning(s);
    }
    forall x: real
      ensures NumberConforms(OffsetSchema, x) <==> IsOffset(x)
      ensures NumberConforms(LimitSchema, x) <==> IsLimit(x)
    {
      NumberSchemasMeaning(x);
    }
  }

  // ---- Field combinators: required, optional, defaulted ----

  /** A required string field: present and accepted by the schema. */
  function Required(field: Option<string>, schema: seq<StringCheck>): Option<string>
  {
    if field.Some? && Conforms(schema, field.value) then field else None
  }

  /** An `.optional()` string field: absent, or present and accepted. */
  predicate OptionalOk(field: Option<string>, schema: seq<StringCheck>)
  {
    field.None? || Conforms(schema, field.value)
  }

  /** A `.default(d)` number field: absent gives `d`. */
  function Defaulted(field: Option<real>, schema: seq<NumberCheck>, default: int): Option<int>
  {
    match field
    case None => Some(default)
    case Some(x) => if NumberConforms(schema, x) then Some(x.Floor) else None
  }

  // ---- Request payloads as clients send them (every field may be missing) ----

  datatype EncryptedInput = EncryptedInput(ciphertext: Option<string>, nonce: Option<string>, algorithm: Option<string>)
  datatype MessageInput = MessageInput(text: Option<string>, encrypted: Option<EncryptedInput>)
  datatype JoinInput = JoinInput(username: Option<string>, room: Option<string>)
  datatype PrivateMessageInput = PrivateMessageInput(to: Option<string>, text: Option<string>, encrypted: Option<EncryptedInput>)
  datatype HistoryInput = HistoryInput(room: Option<string>, offset: Option<real>, limit: Option<real>)
  /** `peer` is the payload's `with` field. */
  datatype PrivateHistoryInput = PrivateHistoryInput(peer: Option<string>, offset: Option<real>, limit: Option<real>)
  datatype TypingInput = TypingInput(room: Option<string>)
  datatype PrivateTypingInput = PrivateTypingInput(to: Option<string>)
  datatype KeyExchangeInput = KeyExchangeInput(to: Option<string>, publicKey: Option<string>, algorithm: Option<string>)

  // ---- Parsed requests ----

  datatype JoinRequest = JoinRequest(username: string, room: string)
  datatype PrivateMessageRequest = PrivateMessageRequest(to: string, body: Body)
  datatype HistoryRequest = HistoryRequest(room: string, offset: int, limit: int)
  datatype PrivateHistoryRequest = PrivateHistoryRequest(peer: string, offset: int, limit: int)
  datatype KeyExchangeRequest = KeyExchangeRequest(to: string, publicKey: string, algorithm: string)

  // ---- The schemas ----

  /** `encryptedPayloadSchema`. */
  function ParseEncrypted(e: EncryptedInput): (r: Option<EncryptedPayload>)
    ensures r.Some? <==>
      && e.ciphertext.Some? && |e.ciphertext.value| >= 1
      && (e.nonce.None? || |e.nonce.value| >= 1)
      && e.algorithm.Some? && IsAlgorithm(e.algorithm.value)
    ensures r.Some? ==> r.value == EncryptedPayload(e.ciphertext.value, e.nonce, e.algorithm.value)
  {
    SchemasMeaning();
    var ciphertext := Required(e.ciphertext, CiphertextSchema);
    var algorithm := Required(e.algorithm, AlgorithmSchema);
    if ciphertext.Some? && OptionalOk(e.nonce, NonceSchema) && algorithm.Some?
    then Some(EncryptedPayload(ciphertext.value, e.nonce, algorithm.value))
    else None
  }

  /**
   * `messagePayloadBaseSchema` followed by the refinement that exactly one of
   * `text` and `encrypted` is truthy.
   */
  function ParseBody(text: Option<string>, encrypted: Option<EncryptedInput>): (r: Option<Body>)
    ensures r.Some? <==>
      && (text.None? || IsText(text.value))
      && (encrypted.None? || ParseEncrypted(encrypted.value).Some?)
      && text.Some? != encrypted.Some?
    ensures r.Some? ==> r.value.Exclusive() && r.value.text == text
    ensures r.Some? ==> (r.value.encrypted.Some? <==> encrypted.Some?)
    ensures r.Some? && encrypted.Some? ==> r.value.encrypted == ParseEncrypted(encrypted.value)
  {
    SchemasMeaning();
    var sealed := if encrypted.Some? then ParseEncrypted(encrypted.value) else None;
    var baseOk := OptionalOk(text, TextSchema) && (encrypted.None? || sealed.Some?);
    if baseOk && Bound(text) != sealed.Some? then Some(Body(text, sealed)) else None
  }

  /** `joinRoomSchema`. */
  function ParseJoin(p: JoinInput): (r: Option<JoinRequest>)
    ensures r.Some? <==>
      p.username.Some? && IsUsername(p.username.value) && p.room.Some? && IsRoom(p.room.value)
    ensures r.Some? ==> r.value == JoinRequest(p.username.value, p.room.value)
  {
    SchemasMeaning();
    var username := Required(p.username, UsernameSchema);
    var room := Required(p.room, RoomSchema);
    if username.Some? && room.Some? then Some(JoinRequest(username.value, room.value)) else None
  }

  /** `sendMessageSchema`. */
  function ParseSendMessage(p: MessageInput): (r: Option<Body>)
    ensures r.Some? <==> ParseBody(p.text, p.encrypted).Some?
    ensures r.Some? ==> r.value.Exclusive() && r.value.text == p.text
    ensures p.text.Some? == p.encrypted.Some? ==> r.None?
  {
    SchemasMeaning();
    ParseBody(p.text, p.encrypted)
  }

  /** `privateMessageSchema`: the message rules plus a valid recipient. */
  function ParsePrivateMessage(p: PrivateMessageInput): (r: Option<PrivateMessageRequest>)
    ensures r.Some? <==>
      p.to.Some? && IsUsername(p.to.value) && ParseBody(p.text, p.encrypted).Some?
    ensures r.Some? ==> r.value.to == p.to.value && r.value.body.Exclusive() && r.value.body.text == p.text
    ensures p.text.Some? == p.encrypted.Some? ==> r.None?
  {
    SchemasMeaning();
    var to := Required(p.to, UsernameSchema);
    var body := ParseBody(p.text, p.encrypted);
    if to.Some? && body.Some? then Some(PrivateMessageRequest(to.value, body.value)) else None
  }

  /** `historySchema`. */
  function ParseHistory(p: HistoryInput): (r: Option<HistoryRequest>)
    ensures r.Some? <==>
      && p.room.Some? && IsRoom(p.room.value)
      && (p.offset.None? || IsOffset(p.offset.value))
      && (p.limit.None? || IsLimit(p.limit.value))
    ensures r.Some? ==> r.value.room == p.room.value && r.value.offset >= 0 && 1 <= r.value.limit <= 50
    ensures r.Some? ==> r.value.offset as real == (if p.offset.Some? then p.offset.value else 0.0)
    ensures r.Some? ==> r.value.limit as real == (if p.limit.Some? then p.limit.value else 10.0)
  {
    SchemasMeaning();
    var room := Required(p.room, RoomSchema);
    var offset := Defaulted(p.offset, OffsetSchema, OffsetDefault);
    var limit := Defaulted(p.limit, LimitSchema, LimitDefault);
    if room.Some? && offset.Some? && limit.Some?
    then Some(HistoryRequest(room.value, offset.value, limit.value))
    else None
  }

  /** `privateHistorySchema`. */
  function ParsePrivateHistory(p: PrivateHistoryInput): (r: Option<PrivateHistoryRequest>)
    ensures r.Some? <==>
      && p.peer.Some? && IsUsername(p.peer.value)
      && (p.offset.None? || IsOffset(p.offset.value))
      && (p.limit.None? || IsLimit(p.limit.value))
    ensures r.Some? ==> r.value.peer == p.peer.value && r.value.offset >= 0 && 1 <= r.value.limit <= 50
    ensures r.Some? ==> r.value.offset as real == (if p.offset.Some? then p.offset.value else 0.0)
    ensures r.Some? ==> r.value.limit as real == (if p.limit.Some? then p.limit.value else 10.0)
  {
    SchemasMeaning();
    var peer := Required(p.peer, UsernameSchema);
    var offset := Defaulted(p.offset, OffsetSchema, OffsetDefault);
    var limit := Defaulted(p.limit, LimitSchema, LimitDefault);
    if peer.Some? && offset.Some? && limit.Some?
    then Some(PrivateHistoryRequest(peer.value, offset.value, limit.value))
    else None
  }

  /** `typingSchema`: the room named in a typing event. */
  function ParseTyping(p: TypingInput): (r: Option<string>)
    ensures r.Some? <==> p.room.Some? && IsRoom(p.room.value)
    ensures r.Some? ==> r == p.room
  {
    SchemasMeaning();
    Required(p.room, RoomSchema)
  }

  /** `privateTypingSchema`: the recipient of a private typing event. */
  function ParsePrivateTyping(p: PrivateTypingInput): (r: Option<string>)
    ensures r.Some? <==> p.to.Some? && IsUsername(p.to.value)
    ensures r.Some? ==> r == p.to
  {
    SchemasMeaning();
    Required(p.to, UsernameSchema)
  }

  /** `keyExchangeSchema`. */
  function ParseKeyExchange(p: KeyExchangeInput): (r: Option<KeyExchangeRequest>)
    ensures r.Some? <==>
      && p.to.Some? && IsUsername(p.to.value)
      && p.publicKey.Some? && |p.publicKey.value| >= 16
      && p.algorithm.Some? && IsAlgorithm(p.algorithm.value)
    ensures r.Some? ==> r.value == KeyExchangeRequest(p.to.value, p.publicKey.value, p.algorithm.value)
  {
    SchemasMeaning();
    var to := Required(p.to, UsernameSchema);
    var publicKey := Required(p.publicKey, PublicKeySchema);
    var algorithm := Required(p.algorithm, AlgorithmSchema);
    if to.Some? && publicKey.Some? && algorithm.Some?
    then Some(KeyExchangeRequest(to.value, publicKey.value, algorithm.value))
    else None
  }
}
