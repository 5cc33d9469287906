/** Message types, the registry of custom types, and the origin that replies name. */
module Message {
  import opened Wrappers
  import opened Keys

  datatype Type = Type(code: int)

  const CALL := Type(1)
  const PUB := Type(2)
  const SUB := Type(3)
  const UNSB := Type(4)
  const END_READ := 5
  const START_WRITE := 6
  const NACK := Type(7)
  const ACK := Type(8)
  const RES := Type(9)
  const EVNT := Type(10)
  const END_WRITE := 11
  const CUSTOM := 256

  predicate IsRead(t: Type) { 0 < t.code < END_READ }

  predicate IsWrite(t: Type) { START_WRITE < t.code < END_WRITE }

  predicate IsStd(t: Type) { IsRead(t) || IsWrite(t) }

  // ------------------------------------------------------------------- origins

  /** The request that a reply is about. */
  datatype Origin = Origin(msg: Uuid, kind: Type, uri: string, channel: string)

  datatype Msg =
    | Call(id: Uuid, uri: string, timeout: int, args: string)
    | Pub(id: Uuid, channel: string, args: string)
    | Sub(id: Uuid, channel: string, pattern: bool)
    | Unsb(id: Uuid, channel: string, pattern: bool)
    | Ack(id: Uuid, origin: Origin)
    | Nack(id: Uuid, origin: Origin, code: int, text: string)
    | Res(id: Uuid, res: Uuid, uri: string, args: string)
    | Evnt(id: Uuid, pub: Uuid, channel: string, pattern': string, args: string)

  function TypeOf(m: Msg): Type {
    match m
    case Call(_, _, _, _) => CALL
    case Pub(_, _, _) => PUB
    case Sub(_, _, _) => SUB
    case Unsb(_, _, _) => UNSB
    case Ack(_, _) => ACK
    case Nack(_, _, _, _) => NACK
    case Res(_, _, _, _) => RES
    case Evnt(_, _, _, _, _) => EVNT
  }

  /** NewAck, with the fresh UUID it gets. */
  function NewAck(m: Msg, id: Uuid): Msg {
    var o := Origin(m.id, TypeOf(m), "", "");
    Ack(id, match m
            case Call(_, uri, _, _) => o.(uri := uri)
            case Pub(_, channel, _) => o.(channel := channel)
            case Sub(_, channel, _) => o.(channel := channel)
            case Unsb(_, channel, _) => o.(channel := channel)
            case _ => o)
  }

  /** NewNack, with the fresh UUID it gets. */
  function NewNack(m: Msg, id: Uuid, code: int, text: string): Msg {
    var o := Origin(m.id, TypeOf(m), "", "");
    Nack(id, (match m
              case Call(_, uri, _, _) => o.(uri := uri)
              case Pub(_, channel, _) => o.(channel := channel)
              case Sub(_, channel, _) => o.(channel := channel)
              case Unsb(_, channel, _) => o.(channel := channel)
              case Ack(_, origin) => origin
              case Nack(_, origin, _, _) => origin
              case Evnt(_, pub, channel, _, _) => o.(msg := pub, kind := PUB, channel := channel)
              case Res(_, res, uri, _) => o.(msg := res, kind := CALL, uri := uri)), code, text)
  }

  /** The request that a message comes from: itself, or the one it answers. */
  function OriginOf(m: Msg): Origin {
    match m
    case Call(id, uri, _, _) => Origin(id, CALL, uri, "")
    case Pub(id, channel, _) => Origin(id, PUB, "", channel)
    case Sub(id, channel, _) => Origin(id, SUB, "", channel)
    case Unsb(id, channel, _) => Origin(id, UNSB, "", channel)
    case Ack(_, origin) => origin
    case Nack(_, origin, _, _) => origin
    case Res(_, res, uri, _) => Origin(res, CALL, uri, "")
    case Evnt(_, pub, channel, _, _) => Origin(pub, PUB, "", channel)
  }

  /** A chain of NACKs, each for the one before: what a server does when it cannot send a reply. */
  function NackChain(m: Msg, ids: seq<Uuid>, code: int, text: string): Msg {
    if ids == [] then m else NewNack(NackChain(m, ids[..|ids| - 1], code, text), ids[|ids| - 1], code, text)
  }

  /** However long the chain, and whatever message it starts from, the origin stays. */
  lemma {:induction false} NackChainOrigin(m: Msg, ids: seq<Uuid>, code: int, text: string)
    ensures OriginOf(NackChain(m, ids, code, text)) == OriginOf(m)
  {
    if ids != [] { NackChainOrigin(m, ids[..|ids| - 1], code, text); }
  }

  /** A NACK has its own UUID, and the code and text that it is given. */
  lemma NackSays(m: Msg, id: Uuid, code: int, text: string)
    ensures var n := NewNack(m, id, code, text); n.Nack? && n.id == id && n.code == code && n.text == text
  {
  }

  /** A reply to a result is about its call, and a reply to an event about the message that published it. */
  lemma ServerMessageOrigin(m: Msg)
    ensures m.Res? ==> OriginOf(m) == Origin(m.res, CALL, m.uri, "")
    ensures m.Evnt? ==> OriginOf(m) == Origin(m.pub, PUB, "", m.channel)
  {
  }

  /** An ACK names the origin exactly when it is for a request: an ACK of a reply loses it. */
  lemma AckOrigin(m: Msg, id: Uuid)
    requires IsRead(OriginOf(m).kind)
    ensures OriginOf(NewAck(m, id)) == OriginOf(m) <==> IsRead(TypeOf(m))
  {
  }

  /** ACK first and then any number of NACKs: still about the request. */
  lemma TracedToRequest(m: Msg, ack: Uuid, ids: seq<Uuid>, code: int, text: string)
    requires IsRead(TypeOf(m))
    ensures OriginOf(NackChain(NewAck(m, ack), ids, code, text)) == OriginOf(m)
    ensures OriginOf(m).msg == m.id && OriginOf(m).kind == TypeOf(m)
    ensures OriginOf(m).uri == if m.Call? then m.uri else ""
    ensures OriginOf(m).channel == if m.Call? then "" else m.channel
  {
    NackChainOrigin(NewAck(m, ack), ids, code, text);
    AckOrigin(m, ack);
  }

  // ------------------------------------------------------------------ registry

  function StandardNames(): map<Type, string> {
    map[CALL := "CALL", PUB := "PUB", SUB := "SUB", UNSB := "UNSB",
        NACK := "NACK", ACK := "ACK", RES := "RES", EVNT := "EVNT"]
  }

  /** The decoder knows the standard types and no other. */
  predicate Decodable(t: Type) {
    t == CALL || t == SUB || t == UNSB || t == PUB || t == NACK || t == ACK || t == RES || t == EVNT
  }

  class Registry {
    var next: int
    var names: map<Type, string>

    constructor ()
      ensures next == CUSTOM && names == StandardNames()
    {
      next, names := CUSTOM, StandardNames();
    }

    /** Goes over the types in whatever order the map gives them; None is the panic for a name that is taken. */
    method Register(name: string, order: seq<Type>) returns (r: Option<Type>)
      requires forall t :: t in order <==> t in names
      modifies this
      ensures (next, names, r) == Registered(old(next), old(names), name)
      ensures r.None? <==> exists t :: t in old(names) && old(names)[t] == name
      ensures r.None? ==> next == old(next) && names == old(names)
      ensures r.Some? ==> r.value == Type(old(next)) && next == old(next) + 1 && names == old(names)[r.value := name]
    {
      for i := 0 to |order|
        invariant next == old(next) && names == old(names)
        invariant forall j :: 0 <= j < i ==> order[j] in names && names[order[j]] != name
      {
        assert order[i] in order;
        if names[order[i]] == name { return None; }
      }
      r := Some(Type(next));
      names := names[Type(next) := name];
      next := next + 1;
    }
  }

  function Registered(next: int, names: map<Type, string>, name: string): (int, map<Type, string>, Option<Type>) {
    if exists t :: t in names && names[t] == name then (next, names, None)
    else (next + 1, names[Type(next) := name], Some(Type(next)))
  }

  /** Any sequence of registrations from the start. */
  function RegisterAll(all: seq<string>): (int, map<Type, string>) {
    if all == [] then (CUSTOM, StandardNames())
    else
      var (next, names) := RegisterAll(all[..|all| - 1]);
      var (next', names', _) := Registered(next, names, all[|all| - 1]);
      (next', names')
  }

  /** The names are pairwise distinct, and the types taken are the standard ones and those from 256 up to the next. */
  ghost predicate Sound(next: int, names: map<Type, string>) {
    && next >= CUSTOM
    && (forall t, t' :: t in names && t' in names && names[t] == names[t'] ==> t == t')
    && (forall t :: t in names <==> Decodable(t) || CUSTOM <= t.code < next)
  }

  lemma StandardTypes(t: Type)
    ensures t in StandardNames() <==> Decodable(t)
  {
  }

  /** The position in this list tells two names apart. */
  function Rank(name: string): int {
    if name == "CALL" then 1
    else if name == "PUB" then 2
    else if name == "SUB" then 3
    else if name == "UNSB" then 4
    else if name == "NACK" then 7
    else if name == "ACK" then 8
    else if name == "RES" then 9
    else 10
  }

  lemma StandardRank(t: Type)
    requires t in StandardNames()
    ensures Rank(StandardNames()[t]) == t.code
  {
    StandardTypes(t);
  }

  lemma StandardSound()
    ensures Sound(CUSTOM, StandardNames())
  {
    var names := StandardNames();
    forall t ensures t in names <==> Decodable(t) { StandardTypes(t); }
    forall t | t in names ensures Rank(names[t]) == t.code { StandardRank(t); }
  }

  lemma RegisteredSound(next: int, names: map<Type, string>, name: string)
    requires Sound(next, names)
    ensures var (next', names', _) := Registered(next, names, name); Sound(next', names')
  {
  }

  /** Every run of registrations keeps that, panics included. */
  lemma {:induction false} RegistryRuns(all: seq<string>)
    ensures Sound(RegisterAll(all).0, RegisterAll(all).1)
  {
    if all == [] {
      StandardSound();
    } else {
      RegistryRuns(all[..|all| - 1]);
      var (next, names) := RegisterAll(all[..|all| - 1]);
      RegisteredSound(next, names, all[|all| - 1]);
    }
  }

  /** A type that a registration returns was not in use, and is no request, no response and not decodable. */
  lemma RegisteredFresh(all: seq<string>, name: string)
    ensures var (next, names) := RegisterAll(all);
      var r := Registered(next, names, name).2;
      r.Some? ==> r.value !in names && r.value.code >= CUSTOM && !IsStd(r.value) && !Decodable(r.value)
  {
    RegistryRuns(all);
    var (next, names) := RegisterAll(all);
    NextUnused(next, names);
  }

  predicate IsStandardName(name: string) {
    || name == "CALL" || name == "PUB" || name == "SUB" || name == "UNSB"
    || name == "NACK" || name == "ACK" || name == "RES" || name == "EVNT"
  }

  lemma StandardTaken(name: string)
    ensures Taken(StandardNames(), name) <==> IsStandardName(name)
  {
    var names := StandardNames();
    if Taken(names, name) {
      var t :| t in names && names[t] == name;
      StandardTypes(t);
    }
    assert names[CALL] == "CALL" && names[PUB] == "PUB" && names[SUB] == "SUB" && names[UNSB] == "UNSB";
    assert names[NACK] == "NACK" && names[ACK] == "ACK" && names[RES] == "RES" && names[EVNT] == "EVNT";
  }

  predicate Taken(names: map<Type, string>, name: string) { exists t :: t in names && names[t] == name }

  lemma RegisteredTakes(next: int, names: map<Type, string>, name: string, x: string)
    requires Type(next) !in names
    ensures Taken(Registered(next, names, name).1, x) <==> Taken(names, x) || x == name
  {
    var names' := Registered(next, names, name).1;
    if Taken(names, x) {
      var t :| t in names && names[t] == x;
      assert t in names' && names'[t] == x;
    }
    if !Taken(names, name) { assert names'[Type(next)] == name; }
  }

  /** After any registrations a new one panics exactly for the standard names and those registered before. */
  lemma NamesTaken(all: seq<string>, x: string)
    ensures var (next, names) := RegisterAll(all);
      Registered(next, names, x).2.None? <==> IsStandardName(x) || x in all
  {
    TakenAfter(all, x);
    StandardTaken(x);
    var (_, names) := RegisterAll(all);
    assert Taken(names, x) <==> IsStandardName(x) || x in all;
  }

  lemma {:induction false} TakenAfter(all: seq<string>, x: string)
    ensures Taken(RegisterAll(all).1, x) <==> Taken(StandardNames(), x) || x in all
  {
    if all != [] {
      var last := |all| - 1;
      TakenAfter(all[..last], x);
      RegistryRuns(all[..last]);
      var (next, names) := RegisterAll(all[..last]);
      NextUnused(next, names);
      RegisteredTakes(next, names, all[last], x);
      assert all == all[..last] + [all[last]];
    }
  }

  lemma NextUnused(next: int, names: map<Type, string>)
    requires Sound(next, names)
    ensures Type(next) !in names && next >= CUSTOM && !IsStd(Type(next)) && !Decodable(Type(next))
  {
  }
}
