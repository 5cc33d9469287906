/** Which messages a connection may send, and what the server sets up for them. */
module Negotiate {
  import opened Wrappers
  import opened Keys
  import opened Message

  // -------------------------------------------------------------- the decoder

  const ALL_REQUESTS := [CALL, SUB, UNSB, PUB]

  function Requests(types: seq<Type>): seq<Type> {
    if types == [] then []
    else Requests(types[..|types| - 1]) + if IsRead(types[|types| - 1]) then [types[|types| - 1]] else []
  }

  lemma {:induction false} RequestsOf(types: seq<Type>, t: Type)
    ensures t in Requests(types) <==> t in types && IsRead(t)
  {
    if types != [] {
      RequestsOf(types[..|types| - 1], t);
      assert types == types[..|types| - 1] + [types[|types| - 1]];
    }
  }

  /** The loop that UnmarshalRequest starts with. */
  method Clean(allowed: seq<Type>) returns (cleaned: seq<Type>)
    ensures cleaned == if Requests(allowed) == [] then ALL_REQUESTS else Requests(allowed)
  {
    cleaned := [];
    for i := 0 to |allowed|
      invariant cleaned == Requests(allowed[..i])
    {
      assert allowed[..i + 1][..i] == allowed[..i];
      if IsRead(allowed[i]) { cleaned := cleaned + [allowed[i]]; }
    }
    assert allowed[..|allowed|] == allowed;
    if |cleaned| == 0 { cleaned := ALL_REQUESTS; }
  }

  method IsInType(list: seq<Type>, v: Type) returns (found: bool)
    ensures found <==> v in list
  {
    for i := 0 to |list|
      invariant forall j :: 0 <= j < i ==> list[j] != v
    {
      if list[i] == v { return true; }
    }
    return false;
  }

  /** The types of request that the decoder lets through for this list. */
  predicate Accepts(allowed: seq<Type>, t: Type) {
    t in if Requests(allowed) == [] then ALL_REQUESTS else Requests(allowed)
  }

  // -------------------------------------------------------------- the resources

  /** What ServeConn sets up for this list: the results loop, the pub-sub connection, the event loop. */
  datatype Setup = Setup(results: bool, pubSub: bool, events: bool)

  function SetupFor(allowed: seq<Type>): Setup {
    var list := if allowed == [] then ALL_REQUESTS else allowed;
    Setup(CALL in list, SUB in list || UNSB in list, SUB in list)
  }

  /** The decisions of ServeConn. */
  method Plan(allowed: seq<Type>) returns (s: Setup)
    ensures s == SetupFor(allowed)
  {
    var allowedMsgs := if |allowed| == 0 then ALL_REQUESTS else allowed;
    var callOK := IsInType(allowedMsgs, CALL);
    var subOK := IsInType(allowedMsgs, SUB);
    var unsbOK := IsInType(allowedMsgs, UNSB);
    s := Setup(callOK, subOK || unsbOK, subOK);
  }

  /** A request of this type has what it needs. */
  predicate Provided(s: Setup, t: Type) {
    && (t == CALL ==> s.results)
    && (t == SUB ==> s.pubSub && s.events)
    && (t == UNSB ==> s.pubSub)
  }

  /** Every request that the decoder lets through has what it needs. */
  ghost predicate AllProvided(allowed: seq<Type>) {
    forall t :: Accepts(allowed, t) ==> Provided(SetupFor(allowed), t)
  }

  /** Every request that the decoder lets through was asked for. */
  ghost predicate OnlyAsked(allowed: seq<Type>) {
    forall t :: Accepts(allowed, t) ==> allowed == [] || t in allowed
  }

  predicate HoldsRequest(allowed: seq<Type>) { exists t :: t in allowed && IsRead(t) }

  lemma {:induction false} NoRequests(types: seq<Type>)
    ensures Requests(types) == [] <==> !HoldsRequest(types)
  {
    if Requests(types) == [] {
      forall t | t in types ensures !IsRead(t) { RequestsOf(types, t); }
    } else {
      RequestsOf(types, Requests(types)[0]);
    }
  }

  lemma AcceptsExactly(allowed: seq<Type>, t: Type)
    ensures Accepts(allowed, t) <==> IsRead(t) && (!HoldsRequest(allowed) || t in allowed)
  {
    NoRequests(allowed);
    RequestsOf(allowed, t);
  }

  /**
   The decoder and ServeConn agree exactly for the empty list and for the lists that hold a
   request type: only then does every request let through have what it needs.
   */
  lemma Agreement(allowed: seq<Type>)
    ensures AllProvided(allowed) <==> allowed == [] || HoldsRequest(allowed)
  {
    forall t ensures Accepts(allowed, t) <==> IsRead(t) && (!HoldsRequest(allowed) || t in allowed) {
      AcceptsExactly(allowed, t);
    }
    if allowed != [] && !HoldsRequest(allowed) { NothingProvided(allowed, CALL); }
  }

  /** Any other list lets every request through, and all but PUB without what they need. */
  lemma NothingProvided(allowed: seq<Type>, t: Type)
    requires allowed != [] && !HoldsRequest(allowed) && IsRead(t)
    ensures Accepts(allowed, t) && (Provided(SetupFor(allowed), t) <==> t == PUB)
  {
    AcceptsExactly(allowed, t);
    assert IsRead(CALL) && IsRead(SUB) && IsRead(UNSB);
    assert CALL !in allowed && SUB !in allowed && UNSB !in allowed;
  }

  /** And only then are the types of the list the only ones let through, as ServeConn is documented. */
  lemma AskedExactly(allowed: seq<Type>)
    ensures OnlyAsked(allowed) <==> allowed == [] || HoldsRequest(allowed)
  {
    forall t ensures Accepts(allowed, t) <==> IsRead(t) && (!HoldsRequest(allowed) || t in allowed) {
      AcceptsExactly(allowed, t);
    }
    assert IsRead(CALL);
  }

  /**
   Where the decoder and ServeConn agree, what is set up is exactly what the requests let
   through need: nothing that they need is missing, and nothing is set up for no use.
   */
  lemma SetupExactly(allowed: seq<Type>)
    requires allowed == [] || HoldsRequest(allowed)
    ensures var s := SetupFor(allowed);
      && (s.results <==> Accepts(allowed, CALL))
      && (s.pubSub <==> Accepts(allowed, SUB) || Accepts(allowed, UNSB))
      && (s.events <==> Accepts(allowed, SUB))
  {
    AcceptsExactly(allowed, CALL);
    AcceptsExactly(allowed, SUB);
    AcceptsExactly(allowed, UNSB);
  }

  /** Only requests are ever let through. */
  lemma AcceptsRequests(allowed: seq<Type>, t: Type)
    ensures Accepts(allowed, t) ==> IsRead(t)
  {
    RequestsOf(allowed, t);
  }

  // ---------------------------------------------------------------- the header

  predicate IsSpace(c: char) {
    || '\t' <= c <= '\r' || c == ' ' || c == '\U{85}' || c == '\U{A0}' || c == '\U{1680}'
    || '\U{2000}' <= c <= '\U{200a}' || c == '\U{2028}' || c == '\U{2029}' || c == '\U{202f}'
    || c == '\U{205f}' || c == '\U{3000}'
  }

  /** The end of the spaces that start at i. */
  function SkipSpace(s: string, i: nat): (r: nat)
    requires i <= |s|
    ensures i <= r <= |s| && (r < |s| ==> !IsSpace(s[r]))
    ensures forall k :: i <= k < r ==> IsSpace(s[k])
    decreases |s| - i
  {
    if i < |s| && IsSpace(s[i]) then SkipSpace(s, i + 1) else i
  }

  /** The start of the spaces that end at j, but not before i. */
  function DropSpace(s: string, i: nat, j: nat): (r: nat)
    requires i <= j <= |s|
    ensures i <= r <= j && (i < r ==> !IsSpace(s[r - 1]))
    ensures forall k :: r <= k < j ==> IsSpace(s[k])
  {
    if i < j && IsSpace(s[j - 1]) then DropSpace(s, i, j - 1) else j
  }

  /** strings.TrimSpace: cuts the spaces off both ends. */
  function TrimSpace(s: string): string {
    var i := SkipSpace(s, 0);
    s[i..DropSpace(s, i, |s|)]
  }

  predicate Spaces(s: string, i: nat, j: nat)
    requires i <= j <= |s|
  {
    forall k :: i <= k < j ==> IsSpace(s[k])
  }

  /** s from i up to j is core, with nothing but spaces around it and none at its ends. */
  predicate CutAt(s: string, core: string, i: nat, j: nat) {
    && i <= j <= |s| && s[i..j] == core && Spaces(s, 0, i) && Spaces(s, j, |s|)
    && (i < j ==> !IsSpace(s[i]) && !IsSpace(s[j - 1]))
  }

  /** core is s without the spaces at its two ends. */
  predicate Cut(s: string, core: string) { exists i: nat, j: nat | i <= |s| && j <= |s| :: CutAt(s, core, i, j) }

  lemma TrimCuts(s: string)
    ensures Cut(s, TrimSpace(s))
  {
    var i := SkipSpace(s, 0);
    var j := DropSpace(s, i, |s|);
    assert CutAt(s, TrimSpace(s), i, j);
  }

  lemma CutInside(s: string, a: string, i: nat, j: nat, b: string, k: nat, l: nat)
    requires CutAt(s, a, i, j) && CutAt(s, b, k, l)
    ensures i < j ==> k <= i && j <= l
  {
  }

  /** There is only one way to cut the spaces off. */
  lemma CutOnce(s: string, a: string, b: string)
    requires Cut(s, a) && Cut(s, b)
    ensures a == b
  {
    var i: nat, j: nat :| CutAt(s, a, i, j);
    var k: nat, l: nat :| CutAt(s, b, k, l);
    CutInside(s, a, i, j, b, k, l);
    CutInside(s, b, k, l, a, i, j);
  }

  /** No character outside ASCII has a letter of the four type names as its lower case. */
  function Lower(s: string): string {
    seq(|s|, i requires 0 <= i < |s| => if 'A' <= s[i] <= 'Z' then 'a' + (s[i] - 'A') else s[i])
  }

  /** The letters of ASCII in upper case. */
  function Upper(s: string): string {
    seq(|s|, i requires 0 <= i < |s| => if 'a' <= s[i] <= 'z' then 'A' + (s[i] - 'a') else s[i])
  }

  /** A text in lower case is this word of small letters exactly if in upper case it is that word in capitals. */
  lemma CaseMatch(s: string, w: string)
    requires forall i :: 0 <= i < |w| ==> 'a' <= w[i] <= 'z'
    ensures Lower(s) == w <==> Upper(s) == Upper(w)
  {
    if Lower(s) == w {
      forall i | 0 <= i < |s| ensures Upper(s)[i] == Upper(w)[i] { assert Lower(s)[i] == w[i]; }
    } else if Upper(s) == Upper(w) {
      assert |s| == |w|;
      forall i | 0 <= i < |s| ensures Lower(s)[i] == w[i] { assert Upper(s)[i] == Upper(w)[i]; }
    }
  }

  lemma LowerSpaces(s: string, i: nat, j: nat)
    requires i <= j <= |s|
    ensures Spaces(Lower(s), i, j) <==> Spaces(s, i, j)
  {
    forall k | 0 <= k < |s| ensures IsSpace(Lower(s)[k]) <==> IsSpace(s[k]) { LowerSpace(s, k); }
  }

  lemma LowerSpace(s: string, k: nat)
    requires k < |s|
    ensures IsSpace(Lower(s)[k]) <==> IsSpace(s[k])
  {
  }

  lemma LowerCut(s: string, core: string, i: nat, j: nat)
    requires CutAt(s, core, i, j)
    ensures CutAt(Lower(s), Lower(core), i, j)
  {
    LowerSpaces(s, 0, i);
    LowerSpaces(s, j, |s|);
    if i < j {
      LowerSpace(s, i);
      LowerSpace(s, j - 1);
    }
    assert Lower(s)[i..j] == Lower(core);
  }

  /** Spaces are cut off in lower case as they are before. */
  lemma LowerTrims(s: string)
    ensures TrimSpace(Lower(s)) == Lower(TrimSpace(s))
  {
    TrimCuts(s);
    var i: nat, j: nat :| CutAt(s, TrimSpace(s), i, j);
    LowerCut(s, TrimSpace(s), i, j);
    TrimCuts(Lower(s));
    CutOnce(Lower(s), TrimSpace(Lower(s)), Lower(TrimSpace(s)));
  }

  /** strings.Split at commas: the parts between them. */
  function Split(s: string): (parts: seq<string>)
    ensures |parts| > 0
    decreases |s|
  {
    var comma := IndexFrom(s, ',', 0);
    if comma == |s| then [s] else [s[..comma]] + Split(s[comma + 1..])
  }

  function Join(parts: seq<string>): string
    requires |parts| > 0
  {
    if |parts| == 1 then parts[0] else parts[0] + "," + Join(parts[1..])
  }

  /** Splitting loses nothing, and no part holds a comma. */
  lemma {:induction false} SplitJoins(s: string)
    ensures Join(Split(s)) == s
    ensures forall i :: 0 <= i < |Split(s)| ==> ',' !in Split(s)[i]
    decreases |s|
  {
    var comma := IndexFrom(s, ',', 0);
    if comma < |s| {
      SplitJoins(s[comma + 1..]);
      assert Split(s)[1..] == Split(s[comma + 1..]);
      assert s == s[..comma] + "," + s[comma + 1..];
    }
  }

  /** The request type that a part of the header names. */
  function Named(part: string): Option<Type> { TypeNamed(TrimSpace(Lower(part))) }

  function TypeNamed(typ: string): Option<Type> {
    if typ == "call" then Some(CALL)
    else if typ == "sub" then Some(SUB)
    else if typ == "unsb" then Some(UNSB)
    else if typ == "pub" then Some(PUB)
    else None
  }

  lemma NamedRequest(part: string)
    ensures Named(part).Some? ==> IsRead(Named(part).value)
  {
  }

  /** The part, without the spaces at its ends and in capitals, is the name of the request type t. */
  ghost predicate Spells(part: string, t: Type) {
    IsRead(t) && exists core :: Cut(part, core) && Upper(core) == StandardNames()[t]
  }

  lemma TypeNamedSpells(core: string, t: Type)
    ensures TypeNamed(Lower(core)) == Some(t) <==> IsRead(t) && Upper(core) == StandardNames()[t]
  {
    CaseMatch(core, "call");
    CaseMatch(core, "sub");
    CaseMatch(core, "unsb");
    CaseMatch(core, "pub");
    assert Upper("call") == "CALL" && Upper("sub") == "SUB" && Upper("unsb") == "UNSB" && Upper("pub") == "PUB";
  }

  /** Which request type a part names: the one whose name it is, whatever the spaces around it and the case. */
  lemma NamedExactly(part: string, t: Type)
    ensures Named(part) == Some(t) <==> Spells(part, t)
  {
    LowerTrims(part);
    TrimCuts(part);
    TypeNamedSpells(TrimSpace(part), t);
    forall core | Cut(part, core) ensures core == TrimSpace(part) { CutOnce(part, core, TrimSpace(part)); }
  }

  function NamedIn(parts: seq<string>): (opts: seq<Option<Type>>)
    ensures |opts| == |parts|
    ensures forall i :: 0 <= i < |parts| ==> opts[i] == Named(parts[i])
  {
    seq(|parts|, i requires 0 <= i < |parts| => Named(parts[i]))
  }

  function Somes(opts: seq<Option<Type>>): seq<Type> {
    if opts == [] then []
    else Somes(opts[..|opts| - 1]) + if opts[|opts| - 1].Some? then [opts[|opts| - 1].value] else []
  }

  lemma {:induction false} SomesOf(opts: seq<Option<Type>>, t: Type)
    ensures t in Somes(opts) <==> Some(t) in opts
  {
    if opts != [] {
      SomesOf(opts[..|opts| - 1], t);
      assert opts == opts[..|opts| - 1] + [opts[|opts| - 1]];
    }
  }

  function FromHeader(header: string): seq<Type> {
    var allowed := TrimSpace(header);
    if allowed == "" || allowed == "*" then [] else Somes(NamedIn(Split(allowed)))
  }

  /** Without the spaces at its ends, the header is neither empty nor a star, and between its commas it spells t. */
  ghost predicate Lists(header: string, t: Type) {
    exists core :: Cut(header, core) && core != "" && core != "*" && SpelledIn(Split(core), t)
  }

  ghost predicate SpelledIn(parts: seq<string>, t: Type) { exists i :: 0 <= i < |parts| && Spells(parts[i], t) }

  /** The list of a header holds exactly the request types that the header spells. */
  lemma HeaderLists(header: string, t: Type)
    ensures t in FromHeader(header) <==> Lists(header, t)
  {
    HeaderNames(header, t);
    TrimCuts(header);
    forall core | Cut(header, core) ensures core == TrimSpace(header) { CutOnce(header, core, TrimSpace(header)); }
    forall part ensures Named(part) == Some(t) <==> Spells(part, t) { NamedExactly(part, t); }
  }

  method AllowedMessagesFromHeader(header: string) returns (msgs: seq<Type>)
    ensures msgs == FromHeader(header)
    ensures forall t :: t in msgs <==> Lists(header, t)
  {
    forall t ensures t in FromHeader(header) <==> Lists(header, t) { HeaderLists(header, t); }
    msgs := [];
    var allowed := TrimSpace(header);
    if allowed != "" && allowed != "*" {
      var types := Split(allowed);
      ghost var named := NamedIn(types);
      for i := 0 to |types|
        invariant msgs == Somes(named[..i])
      {
        assert named[..i + 1][..i] == named[..i];
        var typ := TrimSpace(Lower(types[i]));
        if typ == "call" {
          msgs := msgs + [CALL];
        } else if typ == "sub" {
          msgs := msgs + [SUB];
        } else if typ == "unsb" {
          msgs := msgs + [UNSB];
        } else if typ == "pub" {
          msgs := msgs + [PUB];
        }
      }
      assert named[..|types|] == named;
    }
  }

  predicate Mentions(parts: seq<string>, t: Type) {
    exists i :: 0 <= i < |parts| && Named(parts[i]) == Some(t)
  }

  /** A message type is in the list exactly if a part of the header names it. */
  lemma HeaderNames(header: string, t: Type)
    ensures var allowed := TrimSpace(header);
      t in FromHeader(header) <==> allowed != "" && allowed != "*" && Mentions(Split(allowed), t)
  {
    SomesOf(NamedIn(Split(TrimSpace(header))), t);
  }

  lemma HeaderHoldsRequests(header: string, t: Type)
    requires t in FromHeader(header)
    ensures IsRead(t)
  {
    HeaderNames(header, t);
    var parts := Split(TrimSpace(header));
    var i :| 0 <= i < |parts| && Named(parts[i]) == Some(t);
    NamedRequest(parts[i]);
  }

  /** For every header, every request let through on the connection is provided for. */
  lemma HeaderAgreement(header: string)
    ensures AllProvided(FromHeader(header))
  {
    var allowed := FromHeader(header);
    Agreement(allowed);
    if allowed != [] { HeaderHoldsRequests(header, allowed[0]); }
  }

  /** A header without restrictions: it is missing, empty or a star. */
  predicate Unrestricted(header: string) { TrimSpace(header) == "" || TrimSpace(header) == "*" }

  /** Some part of the header names the request type t. */
  predicate HeaderMentions(header: string, t: Type) { Mentions(Split(TrimSpace(header)), t) }

  lemma HeaderAccepts(header: string, t: Type)
    ensures Accepts(FromHeader(header), t)
       <==> IsRead(t) && (Unrestricted(header) || HeaderMentions(header, t) || !exists u :: HeaderMentions(header, u))
  {
    var allowed := FromHeader(header);
    AcceptsExactly(allowed, t);
    forall u ensures u in allowed <==> !Unrestricted(header) && HeaderMentions(header, u) { HeaderNames(header, u); }
    forall u | u in allowed ensures IsRead(u) { HeaderHoldsRequests(header, u); }
  }

  /**
   A header without restrictions allows every request. Any other restricts the connection to
   the requests that it names if and only if it names one.
   */
  lemma HeaderRestricts(header: string)
    ensures Unrestricted(header) ==> forall t :: Accepts(FromHeader(header), t) <==> IsRead(t)
    ensures !Unrestricted(header) ==>
      ((forall t :: Accepts(FromHeader(header), t) ==> HeaderMentions(header, t))
       <==> exists t :: HeaderMentions(header, t))
    ensures !Unrestricted(header) && (exists t :: HeaderMentions(header, t)) ==>
      forall t :: Accepts(FromHeader(header), t) <==> HeaderMentions(header, t)
  {
    forall t
      ensures Accepts(FromHeader(header), t)
         <==> IsRead(t) && (Unrestricted(header) || HeaderMentions(header, t) || !exists u :: HeaderMentions(header, u))
    {
      HeaderAccepts(header, t);
    }
    forall t | HeaderMentions(header, t) && !Unrestricted(header) ensures IsRead(t) {
      HeaderNames(header, t);
      HeaderHoldsRequests(header, t);
    }
    assert IsRead(CALL);
  }

  /** This header names none, and so it restricts nothing, although it is neither empty nor "*". */
  lemma UnknownHeaderAllowsAll(t: Type)
    requires IsRead(t)
    ensures !Unrestricted("x") && FromHeader("x") == [] && Accepts(FromHeader("x"), t)
  {
    assert IndexFrom("x", ',', 0) == 1;
    assert Split("x") == ["x"];
    assert Lower("x") == "x" && TrimSpace("x") == "x";
    assert NamedIn(["x"]) == [None];
    assert t in ALL_REQUESTS;
  }
}
