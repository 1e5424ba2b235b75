/**
 RCJ-1 actions: the closed set of legal Runtime-v3 actions, their one byte form, and the
 canonicaliser that accepts exactly those byte forms.
 */
module CanonicalAction {
  import opened Outcomes
  import opened CanonicalJson
  import opened CanonicalScanner

  const MAX_ACTION_BYTES: nat := 65_536

  const ACTION: Bytes := "action"
  const ACTION_ID: Bytes := "action_id"
  const CARD_ID: Bytes := "card_id"
  const KIND: Bytes := "kind"
  const PLAY_CARD: Bytes := "play_card"
  const TARGET_ID: Bytes := "target_id"

  // ---- legal actions ----------------------------------------------------------------------------

  /** `Simple` kinds carry nothing, `Identified` kinds one identity, a played card also its target. */
  datatype Payload =
    | Simple(kind: Bytes)
    | Identified(kind: Bytes, id: Bytes)
    | PlayCard(card: Bytes, target: Option<Bytes>)

  datatype Action = Action(id: Bytes, payload: Payload)

  predicate SimpleKind(kind: Bytes) {
    kind == "end_turn" || kind == "skip_reward" || kind == "rest" || kind == "confirm_victory" || kind == "save_quit"
    || kind == "proceed" || kind == "confirm_selection" || kind == "cancel_selection"
  }

  /** The field in which an identified kind carries its identity. */
  function IdentityField(kind: Bytes): (r: Option<Bytes>)
    ensures r.Some? ==> |r.value| > 0
  {
    if kind == "start_run" then Some("character_id")
    else if kind == "select_map_node" then Some("node_id")
    else if kind == "choose_reward" then Some("reward_id")
    else if kind == "shop_purchase" then Some("item_id")
    else if kind == "shop_remove" || kind == "smith" || kind == "select_card" then Some(CARD_ID)
    else if kind == "event_choice" then Some("choice_id")
    else None
  }

  predicate IdentityByte(c: Byte) {
    ('a' <= c <= 'z') || ('A' <= c <= 'Z') || ('0' <= c <= '9')
    || c == '-' || c == '_' || c == '.' || c == ':' || c == '/'
  }

  predicate Identity(s: Bytes) {
    0 < |s| <= 512 && forall i :: 0 <= i < |s| ==> IdentityByte(s[i])
  }

  predicate LegalPayload(p: Payload) {
    match p
    case Simple(kind) => SimpleKind(kind)
    case Identified(kind, id) => IdentityField(kind).Some? && Identity(id)
    case PlayCard(card, target) => Identity(card) && (target.Some? ==> Identity(target.value))
  }

  predicate LegalAction(a: Action) {
    Identity(a.id) && LegalPayload(a.payload)
  }

  // ---- their byte form --------------------------------------------------------------------------

  /** One member, as it stands between its neighbours. */
  function PrintMember(key: Bytes, value: Bytes): Bytes {
    Quote(key) + [':'] + value
  }

  function PrintPayload(p: Payload): Bytes
    requires LegalPayload(p)
  {
    match p
    case Simple(kind) => ['{'] + PrintMember(KIND, Quote(kind)) + ['}']
    case Identified(kind, id) =>
      var field := IdentityField(kind).value;
      if field[0] < 'k'
      then ['{'] + PrintMember(field, Quote(id)) + [','] + PrintMember(KIND, Quote(kind)) + ['}']
      else ['{'] + PrintMember(KIND, Quote(kind)) + [','] + PrintMember(field, Quote(id)) + ['}']
    case PlayCard(card, target) =>
      ['{'] + PrintMember(CARD_ID, Quote(card)) + [','] + PrintMember(KIND, Quote(PLAY_CARD)) + [',']
      + PrintMember(TARGET_ID, if target.Some? then Quote(target.value) else ['n', 'u', 'l', 'l']) + ['}']
  }

  /** The only accepted spelling of an action: members sorted by key, nothing optional. */
  function Print(a: Action): Bytes
    requires LegalAction(a)
  {
    ['{'] + PrintMember(ACTION, PrintPayload(a.payload)) + [','] + PrintMember(ACTION_ID, Quote(a.id)) + ['}']
  }

  // ---- key order --------------------------------------------------------------------------------

  predicate Less(a: Bytes, b: Bytes) {
    b != [] && (a == [] || a[0] < b[0] || (a[0] == b[0] && Less(a[1..], b[1..])))
  }

  lemma {:induction false} LessTotal(a: Bytes, b: Bytes)
    ensures Less(a, b) || Less(b, a) || a == b
    ensures !(Less(a, b) && Less(b, a))
    ensures Less(a, b) ==> a != b
  {
    if a != [] && b != [] && a[0] == b[0] {
      LessTotal(a[1..], b[1..]);
      if a[1..] == b[1..] {
        assert a == [a[0]] + a[1..] && b == [b[0]] + b[1..];
      }
    }
  }

  lemma {:induction false} LessPrefix(a: Bytes, c: Bytes)
    requires c != []
    ensures Less(a, a + c)
  {
    if a != [] {
      assert (a + c)[1..] == a[1..] + c;
      LessPrefix(a[1..], c);
    }
  }

  /** Members in strictly increasing key order, all the way down. */
  predicate InOrder(d: Doc) {
    d.Object? ==> MembersInOrder(d.members)
  }

  predicate MembersInOrder(m: Members) {
    m.Member? ==> InOrder(m.value) && MembersInOrder(m.rest) && (m.rest.Member? ==> Less(m.key, m.rest.key))
  }

  /** Store a member in an ordered map. */
  function Insert(k: Bytes, v: Doc, m: Members): Members {
    if m.End? then Member(k, v, End)
    else if k == m.key then Member(k, v, m.rest)
    else if Less(k, m.key) then Member(k, v, m)
    else Member(m.key, m.value, Insert(k, v, m.rest))
  }

  /** The value a document denotes, its objects kept as ordered maps. No key repeats in what is read. */
  function ValueOf(d: Doc): Doc {
    if d.Object? then Object(MapOf(d.members)) else d
  }

  function MapOf(m: Members): Members {
    if m.End? then End else Insert(m.key, ValueOf(m.value), MapOf(m.rest))
  }

  lemma {:induction false} InsertKeepsOrder(k: Bytes, v: Doc, m: Members)
    requires MembersInOrder(m) && InOrder(v)
    ensures MembersInOrder(Insert(k, v, m)) && Insert(k, v, m).Member?
    ensures Insert(k, v, m).key == if m.Member? && Less(m.key, k) then m.key else k
  {
    if m.Member? {
      LessTotal(k, m.key);
      if k != m.key && !Less(k, m.key) {
        InsertKeepsOrder(k, v, m.rest);
      }
    }
  }

  lemma {:induction false} ValuesAreInOrder(d: Doc)
    ensures InOrder(ValueOf(d))
    decreases d, 0
  {
    if d.Object? {
      MapsAreInOrder(d.members);
    }
  }

  lemma {:induction false} MapsAreInOrder(m: Members)
    ensures MembersInOrder(MapOf(m))
    decreases m, 1
  {
    if m.Member? {
      ValuesAreInOrder(m.value);
      MapsAreInOrder(m.rest);
      InsertKeepsOrder(m.key, ValueOf(m.value), MapOf(m.rest));
    }
  }

  /** A document already in order denotes itself. */
  lemma {:induction false} InOrderDenotesItself(d: Doc)
    requires InOrder(d)
    ensures ValueOf(d) == d
    decreases d, 0
  {
    if d.Object? {
      MapInOrderIsItself(d.members);
    }
  }

  lemma {:induction false} MapInOrderIsItself(m: Members)
    requires MembersInOrder(m)
    ensures MapOf(m) == m
    decreases m, 1
  {
    if m.Member? {
      InOrderDenotesItself(m.value);
      MapInOrderIsItself(m.rest);
      if m.rest.Member? {
        LessTotal(m.key, m.rest.key);
      }
    }
  }

  // ---- validation -------------------------------------------------------------------------------

  function Get(m: Members, key: Bytes): Option<Doc> {
    if m.End? then None else if m.key == key then Some(m.value) else Get(m.rest, key)
  }

  function Count(m: Members): nat {
    if m.End? then 0 else 1 + Count(m.rest)
  }

  predicate ExactKeys(m: Members, expected: seq<Bytes>) {
    Count(m) == |expected| && forall i :: 0 <= i < |expected| ==> Get(m, expected[i]).Some?
  }

  predicate IdentityAt(m: Members, field: Bytes) {
    Get(m, field).Some? && Get(m, field).value.Text? && Identity(Get(m, field).value.text)
  }

  predicate PayloadAccepted(m: Members) {
    var kind := Get(m, KIND);
    kind.Some? && kind.value.Text?
    && var name := kind.value.text;
       if name == PLAY_CARD then
         ExactKeys(m, [CARD_ID, KIND, TARGET_ID]) && IdentityAt(m, CARD_ID)
         && Get(m, TARGET_ID).Some? && (Get(m, TARGET_ID).value.Null? || IdentityAt(m, TARGET_ID))
       else if IdentityField(name).Some? then
         ExactKeys(m, [IdentityField(name).value, KIND]) && IdentityAt(m, IdentityField(name).value)
       else SimpleKind(name) && ExactKeys(m, [KIND])
  }

  predicate ActionAccepted(v: Doc) {
    v.Object? && ExactKeys(v.members, [ACTION, ACTION_ID]) && IdentityAt(v.members, ACTION_ID)
    && Get(v.members, ACTION).Some? && Get(v.members, ACTION).value.Object? && PayloadAccepted(Get(v.members, ACTION).value.members)
  }

  // ---- what validation accepts -------------------------------------------------------------------

  function PayloadDoc(p: Payload): Doc
    requires LegalPayload(p)
  {
    match p
    case Simple(kind) => Object(Member(KIND, Text(kind), End))
    case Identified(kind, id) =>
      var field := IdentityField(kind).value;
      if field[0] < 'k'
      then Object(Member(field, Text(id), Member(KIND, Text(kind), End)))
      else Object(Member(KIND, Text(kind), Member(field, Text(id), End)))
    case PlayCard(card, target) =>
      Object(Member(CARD_ID, Text(card), Member(KIND, Text(PLAY_CARD),
        Member(TARGET_ID, if target.Some? then Text(target.value) else Null, End))))
  }

  function ActionDoc(a: Action): Doc
    requires LegalAction(a)
  {
    Object(Member(ACTION, PayloadDoc(a.payload), Member(ACTION_ID, Text(a.id), End)))
  }

  lemma ObjectIs(k: Bytes, v: Doc, rest: Members)
    ensures Render(Object(Member(k, v, rest))) == ['{'] + PrintMember(k, Render(v)) + RenderRest(rest)
  {
    var m := Member(k, v, rest);
    assert Render(Object(m)) == ['{'] + RenderMembers(m);
    assert RenderMembers(m) == PrintMember(k, Render(v)) + RenderRest(rest);
  }

  lemma RestIs(k: Bytes, v: Doc, rest: Members)
    ensures RenderRest(Member(k, v, rest)) == [','] + PrintMember(k, Render(v)) + RenderRest(rest)
  {
    var m := Member(k, v, rest);
    assert RenderRest(m) == [','] + RenderMembers(m);
    assert RenderMembers(m) == PrintMember(k, Render(v)) + RenderRest(rest);
  }

  lemma Flatten(a: Bytes, b: Bytes, c: Bytes)
    ensures a + ([','] + b + c) == a + [','] + b + c
  {
  }

  lemma RenderOne(k: Bytes, v: Doc)
    ensures Render(Object(Member(k, v, End))) == ['{'] + PrintMember(k, Render(v)) + ['}']
  {
    ObjectIs(k, v, End);
  }

  lemma RenderTwo(k: Bytes, v: Doc, l: Bytes, w: Doc)
    ensures Render(Object(Member(k, v, Member(l, w, End))))
            == ['{'] + PrintMember(k, Render(v)) + [','] + PrintMember(l, Render(w)) + ['}']
  {
    ObjectIs(k, v, Member(l, w, End));
    RestIs(l, w, End);
    assert RenderRest(End) == ['}'];
    hide Render, RenderRest, PrintMember;
    Flatten(['{'] + PrintMember(k, Render(v)), PrintMember(l, Render(w)), ['}']);
  }

  lemma RenderThree(k: Bytes, v: Doc, l: Bytes, w: Doc, m: Bytes, x: Doc)
    ensures Render(Object(Member(k, v, Member(l, w, Member(m, x, End)))))
            == ['{'] + PrintMember(k, Render(v)) + [','] + PrintMember(l, Render(w)) + [','] + PrintMember(m, Render(x)) + ['}']
  {
    var last := Member(m, x, End);
    assert RenderRest(End) == ['}'];
    hide Render, RenderRest, PrintMember;
    ObjectIs(k, v, Member(l, w, last));
    RestIs(l, w, last);
    RestIs(m, x, End);
    var head := ['{'] + PrintMember(k, Render(v));
    Flatten(head, PrintMember(l, Render(w)), RenderRest(last));
    Flatten(head + [','] + PrintMember(l, Render(w)), PrintMember(m, Render(x)), ['}']);
  }

  lemma PayloadIsRendered(p: Payload)
    requires LegalPayload(p)
    ensures PrintPayload(p) == Render(PayloadDoc(p))
  {
    match p
    case Simple(kind) => RenderOne(KIND, Text(kind));
    case Identified(kind, id) =>
      var field := IdentityField(kind).value;
      RenderTwo(field, Text(id), KIND, Text(kind));
      RenderTwo(KIND, Text(kind), field, Text(id));
    case PlayCard(card, target) =>
      RenderThree(CARD_ID, Text(card), KIND, Text(PLAY_CARD), TARGET_ID,
                  if target.Some? then Text(target.value) else Null);
  }

  /** The byte form is the writing of the ordered document. */
  lemma PrintIsRendered(a: Action)
    requires LegalAction(a)
    ensures Print(a) == Render(ActionDoc(a))
  {
    PayloadIsRendered(a.payload);
    RenderTwo(ACTION, PayloadDoc(a.payload), ACTION_ID, Text(a.id));
  }

  lemma GetHere(m: Members, x: Bytes)
    requires m.Member?
    ensures Get(m, x) == if m.key == x then Some(m.value) else Get(m.rest, x)
    ensures Count(m) == 1 + Count(m.rest)
  {
  }

  lemma OneKey(m: Members, x: Bytes)
    requires ExactKeys(m, [x])
    ensures Get(m, x).Some? && m == Member(x, Get(m, x).value, End)
  {
    assert Get(m, [x][0]).Some?;
    GetHere(m, x);
  }

  lemma TwoKeys(m: Members, x: Bytes, y: Bytes)
    requires MembersInOrder(m) && ExactKeys(m, [x, y]) && Less(x, y)
    ensures Get(m, x).Some? && Get(m, y).Some?
    ensures m == Member(x, Get(m, x).value, Member(y, Get(m, y).value, End))
  {
    hide Less;
    assert Get(m, [x, y][0]).Some? && Get(m, [x, y][1]).Some?;
    GetHere(m, x);
    GetHere(m, y);
    GetHere(m.rest, x);
    GetHere(m.rest, y);
    LessTotal(x, y);
  }

  lemma ThreeKeys(m: Members, x: Bytes, y: Bytes, z: Bytes)
    requires MembersInOrder(m) && ExactKeys(m, [x, y, z]) && Less(x, y) && Less(y, z) && Less(x, z)
    ensures Get(m, x).Some? && Get(m, y).Some? && Get(m, z).Some?
    ensures m == Member(x, Get(m, x).value, Member(y, Get(m, y).value, Member(z, Get(m, z).value, End)))
  {
    hide Less;
    assert Get(m, [x, y, z][0]).Some? && Get(m, [x, y, z][1]).Some? && Get(m, [x, y, z][2]).Some?;
    GetHere(m, x);
    GetHere(m, y);
    GetHere(m, z);
    var n := m.rest;
    GetHere(n, x);
    GetHere(n, y);
    GetHere(n, z);
    GetHere(n.rest, x);
    GetHere(n.rest, y);
    GetHere(n.rest, z);
    LessTotal(x, y);
    LessTotal(y, z);
    LessTotal(x, z);
    assert Less(m.key, n.key) && Less(n.key, n.rest.key);
  }

  /** Bytes that stand for themselves and are ASCII. */
  predicate Clean(s: Bytes) {
    forall i :: 0 <= i < |s| ==> Plain(s[i]) && s[i] as int < 0x80
  }

  lemma IdentitiesAreClean(s: Bytes)
    requires Identity(s)
    ensures Clean(s)
  {
  }

  lemma KindNames(kind: Bytes)
    requires IdentityField(kind).Some?
    ensures kind != PLAY_CARD && Identity(kind)
  {
  }

  lemma FieldNames(kind: Bytes)
    requires IdentityField(kind).Some?
    ensures Identity(IdentityField(kind).value)
  {
  }

  lemma FieldOrder(kind: Bytes)
    requires IdentityField(kind).Some?
    ensures var field := IdentityField(kind).value;
            field != KIND && (if field[0] < 'k' then Less(field, KIND) else Less(KIND, field))
  {
  }

  /** Each identity field differs from `kind` and sorts by its first letter. */
  lemma FieldFacts(kind: Bytes)
    requires IdentityField(kind).Some?
    ensures kind != PLAY_CARD && Identity(kind)
    ensures var field := IdentityField(kind).value;
            field != KIND && Identity(field)
            && (if field[0] < 'k' then Less(field, KIND) else Less(KIND, field))
  {
    hide IdentityField, Less, Identity;
    KindNames(kind);
    FieldNames(kind);
    FieldOrder(kind);
  }

  lemma SimpleFacts(kind: Bytes)
    requires SimpleKind(kind)
    ensures kind != PLAY_CARD && Identity(kind) && IdentityField(kind).None?
  {
  }

  lemma KeyOrder()
    ensures Less(ACTION, ACTION_ID) && Less(CARD_ID, KIND) && Less(KIND, TARGET_ID) && Less(CARD_ID, TARGET_ID)
  {
    assert ACTION_ID == ACTION + "_id";
    LessPrefix(ACTION, "_id");
  }

  lemma KeyNames()
    ensures Identity(KIND) && Identity(CARD_ID) && Identity(TARGET_ID)
    ensures Identity(PLAY_CARD) && Identity(ACTION) && Identity(ACTION_ID)
  {
  }

  lemma KeyFacts()
    ensures Less(ACTION, ACTION_ID) && Less(CARD_ID, KIND) && Less(KIND, TARGET_ID) && Less(CARD_ID, TARGET_ID)
    ensures Identity(KIND) && Identity(CARD_ID) && Identity(TARGET_ID) && Identity(PLAY_CARD)
    ensures Identity(ACTION) && Identity(ACTION_ID)
  {
    hide Less, Identity;
    KeyOrder();
    KeyNames();
  }

  lemma IdentifiedIsAccepted(kind: Bytes, id: Bytes)
    requires LegalPayload(Identified(kind, id))
    ensures PayloadAccepted(PayloadDoc(Identified(kind, id)).members)
  {
    FieldFacts(kind);
    hide IdentityField, Less, Identity, SimpleKind;
    var field := IdentityField(kind).value;
    var m := PayloadDoc(Identified(kind, id)).members;
    GetHere(m, field);
    GetHere(m, KIND);
    GetHere(m.rest, field);
    GetHere(m.rest, KIND);
    assert Count(m.rest) == 1 + Count(End);
    assert Get(m, KIND) == Some(Text(kind)) && Get(m, field) == Some(Text(id));
    assert ExactKeys(m, [field, KIND]);
  }

  /** Validation accepts every legal payload. */
  lemma LegalPayloadIsAccepted(p: Payload)
    requires LegalPayload(p)
    ensures PayloadDoc(p).Object? && PayloadAccepted(PayloadDoc(p).members)
  {
    match p
    case Simple(kind) => SimpleFacts(kind);
    case Identified(kind, id) => IdentifiedIsAccepted(kind, id);
    case PlayCard(card, target) =>
      var m := PayloadDoc(p).members;
      GetHere(m, KIND);
      GetHere(m, TARGET_ID);
      GetHere(m.rest, TARGET_ID);
      GetHere(m.rest.rest, TARGET_ID);
  }

  /** Validation accepts nothing else: an ordered payload that passes is the document of a legal one. */
  lemma AcceptedPayloadIsLegal(v: Doc) returns (p: Payload)
    requires v.Object? && InOrder(v) && PayloadAccepted(v.members)
    ensures LegalPayload(p) && v == PayloadDoc(p)
  {
    var m := v.members;
    var kind := Get(m, KIND).value.text;
    KeyFacts();
    if kind == PLAY_CARD {
      ThreeKeys(m, CARD_ID, KIND, TARGET_ID);
      var target := Get(m, TARGET_ID).value;
      p := PlayCard(Get(m, CARD_ID).value.text, if target.Null? then None else Some(target.text));
    } else if IdentityField(kind).Some? {
      var field := IdentityField(kind).value;
      FieldFacts(kind);
      if field[0] < 'k' {
        TwoKeys(m, field, KIND);
      } else {
        Swapped(m, field, KIND);
        TwoKeys(m, KIND, field);
      }
      p := Identified(kind, Get(m, field).value.text);
    } else {
      OneKey(m, KIND);
      p := Simple(kind);
    }
  }

  lemma Swapped(m: Members, x: Bytes, y: Bytes)
    requires ExactKeys(m, [x, y])
    ensures ExactKeys(m, [y, x])
  {
    assert Get(m, [x, y][0]).Some? && Get(m, [x, y][1]).Some?;
  }

  /** An ordered document passes validation exactly when it is that of a legal action. */
  lemma AcceptedExactlyLegal(v: Doc)
    requires InOrder(v)
    ensures ActionAccepted(v) <==> exists a: Action :: LegalAction(a) && v == ActionDoc(a)
  {
    KeyFacts();
    if ActionAccepted(v) {
      TwoKeys(v.members, ACTION, ACTION_ID);
      var p := AcceptedPayloadIsLegal(Get(v.members, ACTION).value);
      var a := Action(Get(v.members, ACTION_ID).value.text, p);
      assert LegalAction(a) && v == ActionDoc(a);
    }
    if a: Action :| LegalAction(a) && v == ActionDoc(a) {
      LegalIsAccepted(a);
    }
  }

  lemma LegalIsAccepted(a: Action)
    requires LegalAction(a)
    ensures ActionAccepted(ActionDoc(a))
  {
    LegalPayloadIsAccepted(a.payload);
    hide PayloadAccepted, Identity;
    var m := ActionDoc(a).members;
    GetHere(m, ACTION);
    GetHere(m, ACTION_ID);
    GetHere(m.rest, ACTION_ID);
    assert Count(m.rest) == 1 + Count(End);
    assert ExactKeys(m, [ACTION, ACTION_ID]);
  }

  // ---- the documents of legal actions are well formed, ordered and ASCII ---------------------------

  predicate CleanDoc(d: Doc) {
    match d
    case Text(s) => Clean(s)
    case Object(m) => CleanMembers(m)
    case _ => true
  }

  predicate CleanMembers(m: Members) {
    m.Member? ==> Clean(m.key) && CleanDoc(m.value) && CleanMembers(m.rest)
  }

  predicate Ascii(b: Bytes) {
    forall i :: 0 <= i < |b| ==> b[i] as int < 0x80
  }

  lemma {:induction false} CleanDocsAreAscii(d: Doc)
    requires CleanDoc(d)
    ensures Ascii(Render(d))
    decreases d, 0
  {
    match d
    case Object(End) =>
    case Object(m) => CleanMembersAreAscii(m);
    case _ =>
  }

  lemma {:induction false} CleanMembersAreAscii(m: Members)
    requires CleanMembers(m)
    ensures Ascii(RenderRest(m)) && (m.Member? ==> Ascii(RenderMembers(m)))
    decreases m, 1
  {
    if m.Member? {
      CleanDocsAreAscii(m.value);
      CleanMembersAreAscii(m.rest);
      assert Ascii(Quote(m.key));
      hide Render, RenderRest, Quote;
      assert Ascii(Quote(m.key) + [':'] + Render(m.value) + RenderRest(m.rest));
      assert Ascii([','] + RenderMembers(m));
    }
  }

  /** Clean, ordered and with no key in `seen`: what the parts of an action document have in common. */
  predicate Proper(d: Doc) {
    CleanDoc(d) && WellFormed(d) && InOrder(d)
  }

  predicate ProperMembers(m: Members, seen: set<Bytes>) {
    CleanMembers(m) && MembersWellFormed(m, seen) && MembersInOrder(m)
  }

  lemma ProperMember(k: Bytes, v: Doc, rest: Members, seen: set<Bytes>)
    requires Clean(k) && Proper(v) && k !in seen && ProperMembers(rest, seen + {k})
    requires rest.Member? ==> Less(k, rest.key)
    ensures ProperMembers(Member(k, v, rest), seen)
    ensures seen == {} ==> Proper(Object(Member(k, v, rest)))
  {
  }

  lemma IdentityText(s: Bytes)
    requires Identity(s)
    ensures Proper(Text(s))
  {
  }

  lemma PayloadDocIsProper(p: Payload)
    requires LegalPayload(p)
    ensures Proper(PayloadDoc(p))
  {
    KeyFacts();
    match p
    case Simple(kind) =>
      SimpleFacts(kind);
      IdentityText(kind);
      ProperMember(KIND, Text(kind), End, {});
    case Identified(kind, id) => IdentifiedIsProper(kind, id);
    case PlayCard(card, target) => PlayIsProper(card, target);
  }

  lemma IdentifiedIsProper(kind: Bytes, id: Bytes)
    requires LegalPayload(Identified(kind, id))
    ensures Proper(PayloadDoc(Identified(kind, id)))
  {
    FieldFacts(kind);
    assert Identity(KIND);
    hide Identity, Less, IdentityField, Proper, ProperMembers;
    IdentityText(kind);
    IdentityText(id);
    var field := IdentityField(kind).value;
    IdentitiesAreClean(field);
    IdentitiesAreClean(KIND);
    EndIsProper();
    if field[0] < 'k' {
      ProperMember(KIND, Text(kind), End, {} + {field});
      ProperMember(field, Text(id), Member(KIND, Text(kind), End), {});
    } else {
      ProperMember(field, Text(id), End, {} + {KIND});
      ProperMember(KIND, Text(kind), Member(field, Text(id), End), {});
    }
  }

  lemma PlayIsProper(card: Bytes, target: Option<Bytes>)
    requires LegalPayload(PlayCard(card, target))
    ensures Proper(PayloadDoc(PlayCard(card, target)))
  {
    KeyFacts();
    var shown := if target.Some? then Text(target.value) else Null;
    assert Proper(shown) by {
      if target.Some? { IdentityText(target.value); }
    }
    hide Identity, Less, Proper, ProperMembers;
    IdentityText(card);
    IdentityText(PLAY_CARD);
    IdentitiesAreClean(CARD_ID);
    IdentitiesAreClean(KIND);
    IdentitiesAreClean(TARGET_ID);
    EndIsProper();
    ProperMember(TARGET_ID, shown, End, {} + {CARD_ID} + {KIND});
    ProperMember(KIND, Text(PLAY_CARD), Member(TARGET_ID, shown, End), {} + {CARD_ID});
    ProperMember(CARD_ID, Text(card), PayloadDoc(PlayCard(card, target)).members.rest, {});
  }

  lemma EndIsProper()
    ensures forall seen :: ProperMembers(End, seen)
  {
  }

  lemma ActionDocIsProper(a: Action)
    requires LegalAction(a)
    ensures Proper(ActionDoc(a))
  {
    hide Identity, Less, Proper, ProperMembers, PayloadDoc, LegalPayload;
    KeyFacts();
    PayloadDocIsProper(a.payload);
    IdentityText(a.id);
    IdentitiesAreClean(ACTION);
    IdentitiesAreClean(ACTION_ID);
    EndIsProper();
    ProperMember(ACTION_ID, Text(a.id), End, {} + {ACTION});
    ProperMember(ACTION, PayloadDoc(a.payload), Member(ACTION_ID, Text(a.id), End), {});
  }

  // ---- the actions of the runtime, one by one ------------------------------------------------------

  /** Everything a caller may ask of the game. */
  datatype Move =
    | EndTurn | SkipReward | Rest | ConfirmVictory | SaveQuit | Proceed | ConfirmSelection | CancelSelection
    | StartRun(character: Bytes) | SelectMapNode(node: Bytes) | ChooseReward(reward: Bytes) | ShopPurchase(item: Bytes)
    | ShopRemove(removed: Bytes) | Smith(smithed: Bytes) | SelectCard(selected: Bytes) | EventChoice(choice: Bytes)
    | Play(card: Bytes, target: Option<Bytes>)

  /** One to 512 bytes out of letters, digits and `-./:_`, by their ASCII codes. */
  predicate Name(s: Bytes) {
    1 <= |s| <= 512
    && forall i :: 0 <= i < |s| ==>
         var c := s[i] as int;
         0x2D <= c <= 0x3A || 0x41 <= c <= 0x5A || c == 0x5F || 0x61 <= c <= 0x7A
  }

  predicate Playable(m: Move) {
    match m
    case StartRun(id) => Name(id)
    case SelectMapNode(id) => Name(id)
    case ChooseReward(id) => Name(id)
    case ShopPurchase(id) => Name(id)
    case ShopRemove(id) => Name(id)
    case Smith(id) => Name(id)
    case SelectCard(id) => Name(id)
    case EventChoice(id) => Name(id)
    case Play(id, target) => Name(id) && (target.Some? ==> Name(target.value))
    case _ => true
  }

  /** A text member, and objects with one, two and three members, in this order. */
  function Pair(key: Bytes, value: Bytes): Bytes {
    "\"" + key + "\":\"" + value + "\""
  }

  function One(key: Bytes, value: Bytes): Bytes {
    "{" + Pair(key, value) + "}"
  }

  function Two(key: Bytes, value: Bytes, next: Bytes, other: Bytes): Bytes {
    "{" + Pair(key, value) + "," + Pair(next, other) + "}"
  }

  /** The value of the third member is given as it stands. */
  function Three(key: Bytes, value: Bytes, next: Bytes, other: Bytes, last: Bytes, shown: Bytes): Bytes {
    "{" + Pair(key, value) + "," + Pair(next, other) + "," + ("\"" + last + "\":" + shown) + "}"
  }

  /** How each move is spelled: no space, members in the order of their keys. */
  function SpellMove(m: Move): Bytes {
    match m
    case EndTurn => One("kind", "end_turn")
    case SkipReward => One("kind", "skip_reward")
    case Rest => One("kind", "rest")
    case ConfirmVictory => One("kind", "confirm_victory")
    case SaveQuit => One("kind", "save_quit")
    case Proceed => One("kind", "proceed")
    case ConfirmSelection => One("kind", "confirm_selection")
    case CancelSelection => One("kind", "cancel_selection")
    case StartRun(id) => Two("character_id", id, "kind", "start_run")
    case SelectMapNode(id) => Two("kind", "select_map_node", "node_id", id)
    case ChooseReward(id) => Two("kind", "choose_reward", "reward_id", id)
    case ShopPurchase(id) => Two("item_id", id, "kind", "shop_purchase")
    case ShopRemove(id) => Two("card_id", id, "kind", "shop_remove")
    case Smith(id) => Two("card_id", id, "kind", "smith")
    case SelectCard(id) => Two("card_id", id, "kind", "select_card")
    case EventChoice(id) => Two("choice_id", id, "kind", "event_choice")
    case Play(id, target) =>
      Three("card_id", id, "kind", "play_card", "target_id", if target.Some? then "\"" + target.value + "\"" else "null")
  }

  /** A move under the identity of its action. */
  function Spell(id: Bytes, m: Move): Bytes {
    "{\"action\":" + SpellMove(m) + ",\"action_id\":\"" + id + "\"}"
  }

  /** A move as a payload. */
  function PayloadOf(m: Move): Payload {
    match m
    case EndTurn => Simple("end_turn")
    case SkipReward => Simple("skip_reward")
    case Rest => Simple("rest")
    case ConfirmVictory => Simple("confirm_victory")
    case SaveQuit => Simple("save_quit")
    case Proceed => Simple("proceed")
    case ConfirmSelection => Simple("confirm_selection")
    case CancelSelection => Simple("cancel_selection")
    case StartRun(id) => Identified("start_run", id)
    case SelectMapNode(id) => Identified("select_map_node", id)
    case ChooseReward(id) => Identified("choose_reward", id)
    case ShopPurchase(id) => Identified("shop_purchase", id)
    case ShopRemove(id) => Identified("shop_remove", id)
    case Smith(id) => Identified("smith", id)
    case SelectCard(id) => Identified("select_card", id)
    case EventChoice(id) => Identified("event_choice", id)
    case Play(id, target) => PlayCard(id, target)
  }

  lemma NamesAreIdentities(s: Bytes)
    ensures Name(s) <==> Identity(s)
  {
  }

  lemma PairIsPrinted(key: Bytes, value: Bytes)
    ensures PrintMember(key, Quote(value)) == Pair(key, value)
  {
  }

  lemma OneIsPrinted(kind: Bytes)
    ensures ['{'] + PrintMember(KIND, Quote(kind)) + ['}'] == One("kind", kind)
  {
    PairIsPrinted(KIND, kind);
  }

  lemma TwoIsPrinted(key: Bytes, value: Bytes, next: Bytes, other: Bytes)
    ensures ['{'] + PrintMember(key, Quote(value)) + [','] + PrintMember(next, Quote(other)) + ['}']
         == Two(key, value, next, other)
  {
    hide PrintMember, Pair;
    PairIsPrinted(key, value);
    PairIsPrinted(next, other);
  }

  lemma ThreeIsPrinted(key: Bytes, value: Bytes, next: Bytes, other: Bytes, last: Bytes, shown: Bytes)
    ensures ['{'] + PrintMember(key, Quote(value)) + [','] + PrintMember(next, Quote(other)) + [',']
            + PrintMember(last, shown) + ['}']
         == Three(key, value, next, other, last, shown)
  {
    assert PrintMember(last, shown) == "\"" + last + "\":" + shown;
    hide PrintMember, Pair;
    PairIsPrinted(key, value);
    PairIsPrinted(next, other);
  }

  lemma PlayIsPrinted(card: Bytes, target: Option<Bytes>)
    requires LegalPayload(PlayCard(card, target))
    ensures PrintPayload(PlayCard(card, target)) == SpellMove(Play(card, target))
  {
    var shown := if target.Some? then Quote(target.value) else ['n', 'u', 'l', 'l'];
    assert shown == (if target.Some? then "\"" + target.value + "\"" else "null");
    hide Three, PrintMember, Quote, Identity;
    ThreeIsPrinted("card_id", card, "kind", "play_card", "target_id", shown);
  }

  lemma IdentifiedMoveIsPrinted(m: Move)
    requires Playable(m) && PayloadOf(m).Identified?
    ensures LegalPayload(PayloadOf(m)) && PrintPayload(PayloadOf(m)) == SpellMove(m)
  {
    NamesAreIdentities(PayloadOf(m).id);
    hide Two, PrintMember, Identity, Name;
    match m
    case StartRun(id) => TwoIsPrinted("character_id", id, "kind", "start_run");
    case SelectMapNode(id) => TwoIsPrinted("kind", "select_map_node", "node_id", id);
    case ChooseReward(id) => TwoIsPrinted("kind", "choose_reward", "reward_id", id);
    case ShopPurchase(id) => TwoIsPrinted("item_id", id, "kind", "shop_purchase");
    case ShopRemove(id) => TwoIsPrinted("card_id", id, "kind", "shop_remove");
    case Smith(id) => TwoIsPrinted("card_id", id, "kind", "smith");
    case SelectCard(id) => TwoIsPrinted("card_id", id, "kind", "select_card");
    case EventChoice(id) => TwoIsPrinted("choice_id", id, "kind", "event_choice");
  }

  lemma MoveIsPrinted(m: Move)
    requires Playable(m)
    ensures LegalPayload(PayloadOf(m)) && PrintPayload(PayloadOf(m)) == SpellMove(m)
  {
    hide One, Two, Three, PrintMember, Identity, Name, IdentityField;
    match PayloadOf(m)
    case Simple(kind) => OneIsPrinted(kind);
    case Identified(_, _) => IdentifiedMoveIsPrinted(m);
    case PlayCard(id, target) =>
      NamesAreIdentities(id);
      if target.Some? { NamesAreIdentities(target.value); }
      PlayIsPrinted(id, target);
  }

  lemma PayloadIsMove(p: Payload) returns (m: Move)
    requires LegalPayload(p)
    ensures Playable(m) && PayloadOf(m) == p
  {
    match p
    case Simple(kind) =>
      m := if kind == "end_turn" then EndTurn else if kind == "skip_reward" then SkipReward
           else if kind == "rest" then Rest else if kind == "confirm_victory" then ConfirmVictory
           else if kind == "save_quit" then SaveQuit else if kind == "proceed" then Proceed
           else if kind == "confirm_selection" then ConfirmSelection else CancelSelection;
    case Identified(kind, id) =>
      NamesAreIdentities(id);
      m := if kind == "start_run" then StartRun(id) else if kind == "select_map_node" then SelectMapNode(id)
           else if kind == "choose_reward" then ChooseReward(id) else if kind == "shop_purchase" then ShopPurchase(id)
           else if kind == "shop_remove" then ShopRemove(id) else if kind == "smith" then Smith(id)
           else if kind == "select_card" then SelectCard(id) else EventChoice(id);
    case PlayCard(card, target) =>
      NamesAreIdentities(card);
      if target.Some? { NamesAreIdentities(target.value); }
      m := Play(card, target);
  }

  lemma ActionIsSpelled(id: Bytes, m: Move)
    requires Name(id) && Playable(m)
    ensures LegalAction(Action(id, PayloadOf(m))) && Print(Action(id, PayloadOf(m))) == Spell(id, m)
  {
    hide Identity, Name, SpellMove, PrintPayload, LegalPayload;
    NamesAreIdentities(id);
    MoveIsPrinted(m);
    assert PrintMember(ACTION, SpellMove(m)) == "\"action\":" + SpellMove(m);
    assert PrintMember(ACTION_ID, Quote(id)) == "\"action_id\":\"" + id + "\"";
  }

  /** The printed legal actions are exactly the spelled moves. */
  lemma PrintedExactlySpelled(bytes: Bytes)
    ensures (exists a: Action :: LegalAction(a) && bytes == Print(a))
            <==> exists id: Bytes, m: Move :: Name(id) && Playable(m) && bytes == Spell(id, m)
  {
    hide Print, Spell, Playable, LegalPayload, Name, Identity;
    if a: Action :| LegalAction(a) && bytes == Print(a) {
      var m := PayloadIsMove(a.payload);
      NamesAreIdentities(a.id);
      ActionIsSpelled(a.id, m);
      assert Name(a.id) && Playable(m) && bytes == Spell(a.id, m);
    }
    if id: Bytes, m: Move :| Name(id) && Playable(m) && bytes == Spell(id, m) {
      ActionIsSpelled(id, m);
      assert LegalAction(Action(id, PayloadOf(m)));
    }
  }

  // ---- canonicalisation ---------------------------------------------------------------------------

  datatype CanonicalError = InvalidInput | ContractMismatch

  /**
   Accepts a byte string exactly when it is the printed form of a legal action within the size bound,
   and returns it unchanged.
   */
  method Canonicalize(bytes: Bytes) returns (r: Result<Bytes, CanonicalError>)
    ensures r.Ok? <==> |bytes| <= 65_536 && exists id: Bytes, m: Move :: Name(id) && Playable(m) && bytes == Spell(id, m)
    ensures r.Ok? ==> r.value == bytes
    ensures r == Err(ContractMismatch) ==>
              exists d: Doc, a: Action :: WellFormed(d) && bytes == Render(d) && LegalAction(a) && ValueOf(d) == ActionDoc(a)
                                          && d != ActionDoc(a)
  {
    hide LegalAction, Print, ActionAccepted, Render, ParseValue, ValueOf, WellFormed, Name, Playable, Spell, ActionDoc;
    PrintedExactlySpelled(bytes);
    CanonicalExactly(bytes);
    AcceptedExactly(bytes);
    if |bytes| == 0 || |bytes| > MAX_ACTION_BYTES { return Err(InvalidInput); }
    if exists i :: 0 <= i < |bytes| && bytes[i] as int >= 0x80 { return Err(InvalidInput); }
    var scanned := Accepts(bytes);
    if scanned.Err? { return Err(InvalidInput); }
    var value := ValueOf(ParseValue(bytes, 0).value.value);
    if !ActionAccepted(value) { return Err(InvalidInput); }
    var canonical := Render(value);
    if canonical != bytes {
      OutOfOrder(bytes);
      return Err(ContractMismatch);
    }
    return Ok(canonical);
  }

  /** A document that validates but is not printed as it stands has its members in another order. */
  lemma OutOfOrder(bytes: Bytes)
    requires ParseValue(bytes, 0).Some? && ParseValue(bytes, 0).value.end == |bytes|
    requires var value := ValueOf(ParseValue(bytes, 0).value.value); ActionAccepted(value) && Render(value) != bytes
    ensures exists d: Doc, a: Action :: WellFormed(d) && bytes == Render(d) && LegalAction(a) && ValueOf(d) == ActionDoc(a)
                                        && d != ActionDoc(a)
  {
    hide LegalAction, ActionAccepted, Render, ParseValue, ValueOf, WellFormed, ActionDoc;
    var d := ParseValue(bytes, 0).value.value;
    DocWasWritten(bytes, 0);
    assert bytes[0..|bytes|] == bytes;
    ValuesAreInOrder(d);
    AcceptedExactlyLegal(ValueOf(d));
    var a: Action :| LegalAction(a) && ValueOf(d) == ActionDoc(a);
  }

  /** What the steps of canonicalisation test together. */
  ghost predicate Canonical(bytes: Bytes) {
    |bytes| > 0 && Ascii(bytes)
    && ParseValue(bytes, 0).Some? && ParseValue(bytes, 0).value.end == |bytes|
    && var value := ValueOf(ParseValue(bytes, 0).value.value);
       ActionAccepted(value) && Render(value) == bytes
  }

  lemma PrintedIsCanonical(a: Action)
    requires LegalAction(a)
    ensures Canonical(Print(a))
  {
    PrintIsRendered(a);
    ActionDocIsProper(a);
    LegalIsAccepted(a);
    var d := ActionDoc(a);
    hide ActionAccepted, LegalAction, ParseValue;
    CleanDocsAreAscii(d);
    AcceptedExactly(Render(d));
    InOrderDenotesItself(d);
  }

  lemma CanonicalIsPrinted(bytes: Bytes) returns (a: Action)
    requires Canonical(bytes)
    ensures LegalAction(a) && bytes == Print(a)
  {
    var value := ValueOf(ParseValue(bytes, 0).value.value);
    ValuesAreInOrder(ParseValue(bytes, 0).value.value);
    AcceptedExactlyLegal(value);
    a :| LegalAction(a) && value == ActionDoc(a);
    PrintIsRendered(a);
  }

  lemma CanonicalExactly(bytes: Bytes)
    ensures Canonical(bytes) <==> exists a: Action :: LegalAction(a) && bytes == Print(a)
  {
    hide Canonical, LegalAction, Print;
    if Canonical(bytes) {
      var a := CanonicalIsPrinted(bytes);
    }
    if a: Action :| LegalAction(a) && bytes == Print(a) {
      PrintedIsCanonical(a);
    }
  }

  /** An accepted byte string stands for one action only, and one action has one accepted byte string. */
  lemma PrintIsInjective(a: Action, b: Action)
    requires LegalAction(a) && LegalAction(b)
    ensures Print(a) == Print(b) <==> a == b
  {
    if Print(a) == Print(b) {
      PrintIsRendered(a);
      PrintIsRendered(b);
      ActionDocIsProper(a);
      ActionDocIsProper(b);
      RenderIsInjective(ActionDoc(a), ActionDoc(b));
      SameDocument(a, b);
    }
  }

  lemma SameDocument(a: Action, b: Action)
    requires LegalAction(a) && LegalAction(b) && ActionDoc(a) == ActionDoc(b)
    ensures a == b
  {
    SamePayload(a.payload, b.payload);
  }

  lemma SamePayload(p: Payload, q: Payload)
    requires LegalPayload(p) && LegalPayload(q) && PayloadDoc(p) == PayloadDoc(q)
    ensures p == q
  {
    if p.Identified? {
      FieldFacts(p.kind);
    }
    if q.Identified? {
      FieldFacts(q.kind);
    }
  }
}
