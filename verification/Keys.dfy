/** The redis keys of the broker and the cluster slots they hash to. */
module Keys {

  predicate UuidChar(c: char) { '0' <= c <= '9' || 'a' <= c <= 'f' || c == '-' }

  predicate UuidText(s: string) {
    && |s| == 36
    && forall i :: 0 <= i < |s| ==> UuidChar(s[i])
  }

  type Text36 = s: string | UuidText(s) witness "00000000-0000-0000-0000-000000000000"

  /** The UUID of a message or of a connection, by its textual form. */
  datatype Uuid = Uuid(text: Text36)

  /** The four families of keys, before formatting. */
  datatype Key =
    | CallList(uri: string)
    | CallTimeout(uri: string, msg: Uuid)
    | ResList(conn: Uuid)
    | ResTimeout(conn: Uuid, msg: Uuid)

  const CALL_PREFIX := "juggler:calls:"
  const CALL_TIMEOUT_PREFIX := "juggler:calls:timeout:"
  const RES_PREFIX := "juggler:results:"
  const RES_TIMEOUT_PREFIX := "juggler:results:timeout:"

  function Render(k: Key): string {
    match k
    case CallList(uri) => CALL_PREFIX + "{" + uri + "}"
    case CallTimeout(uri, msg) => TimeoutText(CALL_TIMEOUT_PREFIX, uri, msg.text)
    case ResList(conn) => RES_PREFIX + "{" + conn.text + "}"
    case ResTimeout(conn, msg) => TimeoutText(RES_TIMEOUT_PREFIX, conn.text, msg.text)
  }

  function TimeoutText(prefix: string, tag: string, msg: string): string {
    prefix + "{" + tag + "}:" + msg
  }

  // ------------------------------------------------------------ injectivity

  lemma ConcatCancel(a: string, b: string, x: string, y: string)
    requires a + x == b + y && |a| == |b|
    ensures a == b && x == y
  {
    assert a == (a + x)[..|a|] && b == (b + y)[..|b|];
    assert x == (a + x)[|a|..] && y == (b + y)[|b|..];
  }

  /**
   Timeout keys are injective, whatever braces the first part holds; a message without
   a UUID, whose text is empty, is no exception.
   */
  lemma TimeoutTextInjective(prefix: string, tag: string, msg: string, tag': string, msg': string)
    requires (UuidText(msg) || msg == "") && (UuidText(msg') || msg' == "")
    requires TimeoutText(prefix, tag, msg) == TimeoutText(prefix, tag', msg')
    ensures tag == tag' && msg == msg'
  {
    var a, b := prefix + "{" + tag + "}:", prefix + "{" + tag' + "}:";
    var last := |a + msg| - 1;
    assert (a + msg)[last] == (b + msg')[last];
    assert |msg| == |msg'|;
    ConcatCancel(a, b, msg, msg');
    var open := prefix + "{";
    assert open + (tag + "}:") == a && open + (tag' + "}:") == b;
    ConcatCancel(open, open, tag + "}:", tag' + "}:");
    ConcatCancel(tag, tag', "}:", "}:");
  }

  /** Distinct keys are distinct redis keys, whatever the URI holds. */
  lemma RenderInjective(a: Key, b: Key)
    ensures Render(a) == Render(b) <==> a == b
  {
    if Render(a) == Render(b) {
      assert Render(a)[8] == Render(b)[8];
      assert (Render(a)[8] == 'c') == (a.CallList? || a.CallTimeout?);
      assert (Render(b)[8] == 'c') == (b.CallList? || b.CallTimeout?);
      if a.CallList? || a.CallTimeout? {
        assert Render(a)[14] == Render(b)[14];
        assert (Render(a)[14] == '{') == a.CallList?;
        assert (Render(b)[14] == '{') == b.CallList?;
        if a.CallList? {
          var p := CALL_PREFIX + "{";
          assert Render(a) == p + (a.uri + "}") && Render(b) == p + (b.uri + "}");
          ConcatCancel(p, p, a.uri + "}", b.uri + "}");
          ConcatCancel(a.uri, b.uri, "}", "}");
        } else {
          TimeoutTextInjective(CALL_TIMEOUT_PREFIX, a.uri, a.msg.text, b.uri, b.msg.text);
        }
      } else {
        assert Render(a)[16] == Render(b)[16];
        assert (Render(a)[16] == '{') == a.ResList?;
        assert (Render(b)[16] == '{') == b.ResList?;
        if a.ResList? {
          var p := RES_PREFIX + "{";
          assert Render(a) == p + (a.conn.text + "}") && Render(b) == p + (b.conn.text + "}");
          ConcatCancel(p, p, a.conn.text + "}", b.conn.text + "}");
          ConcatCancel(a.conn.text, b.conn.text, "}", "}");
        } else {
          TimeoutTextInjective(RES_TIMEOUT_PREFIX, a.conn.text, a.msg.text, b.conn.text, b.msg.text);
        }
      }
    }
  }

  // -------------------------------------------------------- cluster hashing

  /** The first index at or after i that holds c, or |s|. */
  function IndexFrom(s: string, c: char, i: nat): (r: nat)
    requires i <= |s|
    ensures i <= r <= |s|
    ensures r < |s| ==> s[r] == c
    ensures forall j :: i <= j < r ==> s[j] != c
    decreases |s| - i
  {
    if i == |s| || s[i] == c then i else IndexFrom(s, c, i + 1)
  }

  lemma IndexIs(s: string, c: char, i: nat, r: nat)
    requires i <= r < |s| && s[r] == c
    requires forall j :: i <= j < r ==> s[j] != c
    ensures IndexFrom(s, c, i) == r
  {
  }

  lemma IndexAbsent(s: string, c: char, i: nat)
    requires i <= |s| && c !in s
    ensures IndexFrom(s, c, i) == |s|
  {
  }

  /** The part of a key that is hashed: section "Hash tags" of the Redis Cluster Specification. */
  function HashedPart(key: string): string {
    var open := IndexFrom(key, '{', 0);
    if open == |key| then key else
    var close := IndexFrom(key, '}', open + 1);
    if close == |key| || close == open + 1 then key else key[open + 1..close]
  }

  /** The text of a tag as redis sees it: everything before the first closing brace. */
  function Tag(text: string): string { text[..IndexFrom(text, '}', 0)] }

  predicate Taggable(text: string) { text != "" && text[0] != '}' }

  lemma HashedKey(prefix: string, text: string, suffix: string)
    requires '{' !in prefix
    ensures var key := prefix + "{" + text + "}" + suffix;
            HashedPart(key) == if Taggable(text) then Tag(text) else key
  {
    var key := prefix + "{" + text + "}" + suffix;
    var open := |prefix|;
    assert forall j :: 0 <= j < open ==> key[j] == prefix[j];
    IndexIs(key, '{', 0, open);
    var t := IndexFrom(text, '}', 0);
    var close := open + 1 + t;
    assert forall j :: 0 <= j < |text| ==> key[open + 1 + j] == text[j];
    assert key[open + 1 + |text|] == '}';
    forall j | open + 1 <= j < close ensures key[j] != '}' {
      assert key[j] == text[j - open - 1];
    }
    IndexIs(key, '}', open + 1, close);
    assert text[..t] == key[open + 1..close];
  }

  lemma CallListHashed(uri: string)
    ensures HashedPart(Render(CallList(uri))) == if Taggable(uri) then Tag(uri) else Render(CallList(uri))
  {
    HashedKey(CALL_PREFIX, uri, "");
    assert Render(CallList(uri)) == CALL_PREFIX + "{" + uri + "}" + "";
  }

  lemma CallTimeoutHashed(uri: string, msg: Uuid)
    ensures HashedPart(Render(CallTimeout(uri, msg)))
         == if Taggable(uri) then Tag(uri) else Render(CallTimeout(uri, msg))
  {
    HashedKey(CALL_TIMEOUT_PREFIX, uri, ":" + msg.text);
    assert Render(CallTimeout(uri, msg)) == CALL_TIMEOUT_PREFIX + "{" + uri + "}" + (":" + msg.text);
  }

  /** The two keys of a call hash the same text exactly for URIs that are not empty and do not start with '}'. */
  lemma CallKeysShareTag(uri: string, msg: Uuid)
    ensures HashedPart(Render(CallList(uri))) == HashedPart(Render(CallTimeout(uri, msg))) <==> Taggable(uri)
  {
    CallListHashed(uri);
    CallTimeoutHashed(uri, msg);
    RenderInjective(CallList(uri), CallTimeout(uri, msg));
  }

  lemma UuidHashed(prefix: string, conn: Uuid, suffix: string)
    requires '{' !in prefix
    ensures HashedPart(prefix + "{" + conn.text + "}" + suffix) == conn.text
  {
    var t := conn.text;
    HashedKey(prefix, t, suffix);
    assert UuidChar(t[0]);
    IndexAbsent(t, '}', 0);
    assert Tag(t) == t;
  }

  lemma ResListHashed(conn: Uuid)
    ensures HashedPart(Render(ResList(conn))) == conn.text
  {
    UuidHashed(RES_PREFIX, conn, "");
    assert Render(ResList(conn)) == RES_PREFIX + "{" + conn.text + "}" + "";
  }

  lemma UuidTimeoutHashed(prefix: string, conn: Uuid, msg: string)
    requires '{' !in prefix
    ensures HashedPart(TimeoutText(prefix, conn.text, msg)) == conn.text
  {
    UuidHashed(prefix, conn, ":" + msg);
    assert TimeoutText(prefix, conn.text, msg) == prefix + "{" + conn.text + "}" + (":" + msg);
  }

  lemma ResTimeoutHashed(conn: Uuid, msg: Uuid)
    ensures HashedPart(Render(ResTimeout(conn, msg))) == conn.text
  {
    UuidTimeoutHashed(RES_TIMEOUT_PREFIX, conn, msg.text);
  }

  /** The two keys of a result always hash the connection UUID, and so share a slot. */
  lemma ResKeysShareTag(conn: Uuid, msg: Uuid)
    ensures HashedPart(Render(ResList(conn))) == HashedPart(Render(ResTimeout(conn, msg))) == conn.text
  {
    ResListHashed(conn);
    ResTimeoutHashed(conn, msg);
  }

  /** The slot of a key, for any hash function. */
  function Slot(hash: string -> int, key: string): int { hash(HashedPart(key)) }

  /** The tag of the URI comes again, between braces, at its first opening brace. */
  predicate RepeatsTag(uri: string) {
    var t, open := Tag(uri), IndexFrom(uri, '{', 0);
    && |t| < open
    && open + |t| + 1 < |uri|
    && uri[open + 1..open + 1 + |t|] == t
    && uri[open + 1 + |t|] == '}'
  }

  /** The URIs that are hashed alike bare and as the tag of their list key. */
  predicate HashesBare(uri: string) {
    uri != "" && ('}' in uri ==> Taggable(uri) && RepeatsTag(uri))
  }

  lemma UnbracedHashesBare(uri: string)
    requires uri != "" && '}' !in uri
    ensures HashedPart(uri) == HashedPart(Render(CallList(uri))) == uri
  {
    CallListHashed(uri);
    IndexAbsent(uri, '}', 0);
    assert Tag(uri) == uri;
    var open := IndexFrom(uri, '{', 0);
    if open < |uri| {
      IndexAbsent(uri, '}', open + 1);
    }
  }

  lemma RepeatedTagHashesBare(uri: string)
    requires Taggable(uri) && RepeatsTag(uri)
    ensures HashedPart(uri) == Tag(uri)
  {
    var t, open := Tag(uri), IndexFrom(uri, '{', 0);
    var close := open + 1 + |t|;
    forall j | open + 1 <= j < close ensures uri[j] != '}' {
      assert uri[j] == uri[open + 1..close][j - open - 1] == uri[j - open - 1];
    }
    IndexIs(uri, '}', open + 1, close);
  }

  lemma HashesBareOnlyIf(uri: string)
    requires '}' in uri && Taggable(uri) && HashedPart(uri) == Tag(uri)
    ensures RepeatsTag(uri)
  {
    var f, open := IndexFrom(uri, '}', 0), IndexFrom(uri, '{', 0);
    assert |HashedPart(uri)| == f < |uri|;
    assert open < |uri|;
    var close := IndexFrom(uri, '}', open + 1);
    assert HashedPart(uri) == uri[open + 1..close] && close < |uri|;
    assert open < f ==> close <= f;
  }

  /** Exactly which URIs hash alike bare and in their list key. */
  lemma BareUriHashed(uri: string)
    ensures HashedPart(uri) == HashedPart(Render(CallList(uri))) <==> HashesBare(uri)
  {
    CallListHashed(uri);
    if uri == "" {
    } else if '}' !in uri {
      UnbracedHashesBare(uri);
    } else if HashedPart(uri) == HashedPart(Render(CallList(uri))) {
      assert |HashedPart(uri)| <= |uri| < |Render(CallList(uri))|;
      HashesBareOnlyIf(uri);
    } else if HashesBare(uri) {
      RepeatedTagHashesBare(uri);
    }
  }

  /** A URI for which it fails: it is grouped by "b" but its list is hashed on "a{b". */
  lemma BracedUriSplitsWrong()
    ensures HashedPart("a{b}") == "b" && HashedPart(Render(CallList("a{b}"))) == "a{b"
  {
    var uri := "a{b}";
    IndexIs(uri, '{', 0, 1);
    IndexIs(uri, '}', 2, 3);
    IndexIs(uri, '}', 0, 3);
    CallListHashed(uri);
  }

  /** Grouping such URIs by their own slot groups exactly the list keys that share a slot, for any hash function. */
  lemma GroupingBySlot(hash: string -> int, u: string, v: string)
    requires HashesBare(u) && HashesBare(v)
    ensures Slot(hash, u) == Slot(hash, v)
       <==> Slot(hash, Render(CallList(u))) == Slot(hash, Render(CallList(v)))
  {
    BareUriHashed(u);
    BareUriHashed(v);
  }
}
