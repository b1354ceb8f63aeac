/**
 Routing keys (`SYMBOL:type`) and exchange stream names (`symbol@trade`, `symbol@depth5`), and the string
 processing that maps one to the other on the way to the exchange and back.
 */
module Keys {
  import opened Wrappers

  datatype PriceType = Trade | Depth

  const EXCHANGE_ID := "BINANCE"

  // ---------------------------------------------------------------- strings

  function Pieces(s: string, sep: char): (pieces: seq<string>)
    ensures |pieces| > 0
  {
    if s == [] then [[]]
    else
      var rest := Pieces(s[1..], sep);
      if s[0] == sep then [[]] + rest else [[s[0]] + rest[0]] + rest[1..]
  }

  /** `std::views::split`: the empty string has no pieces at all. */
  function Split(s: string, sep: char): seq<string> {
    if s == [] then [] else Pieces(s, sep)
  }

  /** `std::string(s.c_str())`: everything before the first NUL. */
  function CStr(s: string): string {
    Pieces(s, '\0')[0]
  }

  function ToLower(c: char): char {
    if 'A' <= c <= 'Z' then c - 'A' + 'a' else c
  }

  function ToUpper(c: char): char {
    if 'a' <= c <= 'z' then c - 'a' + 'A' else c
  }

  function Lower(s: string): string {
    seq(|s|, i requires 0 <= i < |s| => ToLower(s[i]))
  }

  function Upper(s: string): string {
    seq(|s|, i requires 0 <= i < |s| => ToUpper(s[i]))
  }

  predicate Occurs(s: string, sub: string, i: nat) {
    i + |sub| <= |s| && s[i..i + |sub|] == sub
  }

  /** `s.find(sub) != npos` */
  predicate Contains(s: string, sub: string) {
    exists i | 0 <= i <= |s| :: Occurs(s, sub, i)
  }

  // ---------------------------------------------------------------- keys and streams

  function TypeName(kind: PriceType): string {
    match kind case Trade => "trade" case Depth => "depth"
  }

  function StrToPriceType(s: string): Option<PriceType> {
    if s == "depth" then Some(Depth) else if s == "trade" then Some(Trade) else None
  }

  function StreamSuffix(kind: PriceType): string {
    match kind case Trade => "trade" case Depth => "depth5"
  }

  /** The stream the session derives from a symbol. */
  function StreamName(symbol: string, kind: PriceType): string {
    symbol + ['@'] + StreamSuffix(kind)
  }

  /** A missing (or non-string) JSON member is `None`. */
  function GenerateKey(symbol: Option<string>, subscriptionType: Option<string>): Option<string> {
    if symbol.None? || subscriptionType.None? then None
    else Some(CStr(symbol.value) + ":" + subscriptionType.value)
  }

  function KeyToStream(key: string): Option<string>
    requires |Split(key, ':')| >= 2
  {
    var tokens := Split(key, ':');
    match StrToPriceType(tokens[1])
    case None => None
    case Some(kind) => Some(StreamName(Lower(tokens[0]), kind))
  }

  function StreamToKey(stream: string): Option<string> {
    var tokens := Split(CStr(stream), '@');
    if |tokens| < 2 then None
    else if Contains(tokens[1], "trade") then Some(Upper(tokens[0]) + ":" + "trade")
    else if Contains(tokens[1], "depth") then Some(Upper(tokens[0]) + ":" + "depth")
    else None
  }

  function DisintegrateKey(key: string): (string, string, string)
    requires |Split(key, ':')| >= 2
  {
    var tokens := Split(key, ':');
    (tokens[0], tokens[1], EXCHANGE_ID)
  }

  /** `subscribe` and `unsubscribe`: the symbol token is lower-cased in place. */
  method KeyToStreamInPlace(key: string) returns (stream: Option<string>)
    requires |Split(key, ':')| >= 2
    ensures stream == KeyToStream(key)
  {
    var tokens := Split(key, ':');
    var symbol := tokens[0];
    for i := 0 to |symbol|
      invariant |symbol| == |tokens[0]|
      invariant forall j :: 0 <= j < i ==> symbol[j] == ToLower(tokens[0][j])
      invariant forall j :: i <= j < |symbol| ==> symbol[j] == tokens[0][j]
    {
      symbol := symbol[i := ToLower(symbol[i])];
    }
    assert symbol == Lower(tokens[0]);
    match StrToPriceType(tokens[1])
    case None => stream := None;
    case Some(kind) => stream := Some(StreamName(symbol, kind));
  }

  /** The key part of `onPriceUpdate`: the symbol token is upper-cased in place. */
  method StreamToKeyInPlace(stream: string) returns (key: Option<string>)
    ensures key == StreamToKey(stream)
  {
    var tokens := Split(CStr(stream), '@');
    if |tokens| < 2 { return None; }
    var symbol := tokens[0];
    for i := 0 to |symbol|
      invariant |symbol| == |tokens[0]|
      invariant forall j :: 0 <= j < i ==> symbol[j] == ToUpper(tokens[0][j])
      invariant forall j :: i <= j < |symbol| ==> symbol[j] == tokens[0][j]
    {
      symbol := symbol[i := ToUpper(symbol[i])];
    }
    assert symbol == Upper(tokens[0]);
    if Contains(tokens[1], "trade") {
      key := Some(symbol + ":" + "trade");
    } else if Contains(tokens[1], "depth") {
      key := Some(symbol + ":" + "depth");
    } else {
      key := None;
    }
  }

  // ---------------------------------------------------------------- splitting

  lemma {:induction false} PiecesWithoutSeparator(s: string, sep: char)
    requires sep !in s
    ensures Pieces(s, sep) == [s]
  {
    if s != [] {
      PiecesWithoutSeparator(s[1..], sep);
      assert [s[0]] + s[1..] == s;
    }
  }

  lemma {:induction false} PiecesAtSeparator(a: string, sep: char, b: string)
    requires sep !in a
    ensures Pieces(a + [sep] + b, sep) == [a] + Pieces(b, sep)
  {
    var s := a + [sep] + b;
    if a == [] {
      assert s[1..] == b;
    } else {
      assert s[1..] == a[1..] + [sep] + b;
      PiecesAtSeparator(a[1..], sep, b);
      assert [a[0]] + a[1..] == a;
    }
  }

  /** The first piece is the prefix up to the first separator. */
  lemma {:induction false} FirstPiece(s: string, sep: char)
    ensures var pieces := Pieces(s, sep);
            && pieces[0] <= s && sep !in pieces[0]
            && (sep in s ==> |pieces| >= 2)
            && (pieces[0] == s || s[|pieces[0]|] == sep)
    decreases |s|
  {
    if s != [] && s[0] != sep {
      FirstPiece(s[1..], sep);
      assert s == [s[0]] + s[1..];
    }
  }

  lemma PrefixStops(p: string, s: string, sep: char, i: nat)
    requires p <= s && sep !in p && i < |s| && s[i] == sep
    ensures |p| <= i && p <= s[..i]
  {
    assert forall j :: 0 <= j < |p| ==> p[j] == s[j] && p[j] != sep;
  }

  // ---------------------------------------------------------------- round trips

  /** No lower-case letter, no ':' and no '@'. */
  predicate Clean(symbol: string) {
    ':' !in symbol && '@' !in symbol && forall c | c in symbol :: !('a' <= c <= 'z')
  }

  /** Splitting `a + sep + b`: the first token is a prefix of `a`, all of it iff `a` holds no separator. */
  lemma SplitJoined(a: string, sep: char, b: string)
    ensures var tokens := Split(a + [sep] + b, sep);
            && |tokens| >= 2 && sep !in tokens[0] && tokens[0] <= a
            && (sep !in a ==> tokens == [a] + Pieces(b, sep))
            && (sep !in a && sep !in b ==> tokens == [a, b])
  {
    var s := a + [sep] + b;
    FirstPiece(s, sep);
    assert s[|a|] == sep && s[..|a|] == a;
    PrefixStops(Split(s, sep)[0], s, sep, |a|);
    if sep !in a {
      PiecesAtSeparator(a, sep, b);
      if sep !in b {
        PiecesWithoutSeparator(b, sep);
      }
    }
  }

  /** Every generated key can be split and taken apart: both reads of `tokens` are in range. It comes apart
      into what it was made of iff neither part holds a ':'. */
  lemma DisintegrateInvertsGenerate(symbol: string, subscriptionType: string)
    ensures var key := symbol + ":" + subscriptionType;
            && ('\0' !in symbol ==> GenerateKey(Some(symbol), Some(subscriptionType)) == Some(key))
            && |Split(key, ':')| >= 2
            && (DisintegrateKey(key) == (symbol, subscriptionType, EXCHANGE_ID)
                <==> (':' !in symbol && ':' !in subscriptionType))
  {
    SplitJoined(symbol, ':', subscriptionType);
    if '\0' !in symbol {
      PiecesWithoutSeparator(symbol, '\0');
    }
    if ':' in subscriptionType {
      FirstPiece(subscriptionType, ':');
    }
  }

  lemma UpperLowerChar(c: char)
    ensures ToUpper(ToLower(c)) == c <==> !('a' <= c <= 'z')
  {
    assert 'A' <= c <= 'Z' ==> 'a' <= ToLower(c) <= 'z';
  }

  lemma UpperLower(s: string)
    ensures Upper(Lower(s)) == s <==> forall c | c in s :: !('a' <= c <= 'z')
  {
    forall i | 0 <= i < |s| ensures Upper(Lower(s))[i] == s[i] <==> !('a' <= s[i] <= 'z') {
      UpperLowerChar(s[i]);
    }
    if forall c | c in s :: !('a' <= c <= 'z') {
      forall i | 0 <= i < |s| ensures Upper(Lower(s))[i] == s[i] {
        assert s[i] in s;
      }
      assert Upper(Lower(s)) == s;
    } else {
      var c :| c in s && 'a' <= c <= 'z';
      var i :| 0 <= i < |s| && s[i] == c;
      assert Upper(Lower(s))[i] != s[i];
    }
  }

  lemma CaseKeeps(s: string, c: char)
    requires !('A' <= c <= 'Z') && !('a' <= c <= 'z')
    ensures c in Lower(s) <==> c in s
    ensures c in Upper(s) <==> c in s
  {
    forall i | 0 <= i < |s| ensures (Lower(s)[i] == c <==> s[i] == c) && (Upper(s)[i] == c <==> s[i] == c) {
    }
    if i :| 0 <= i < |s| && s[i] == c {
      assert Lower(s)[i] == c && Upper(s)[i] == c;
    }
  }

  lemma StreamSuffixes()
    ensures Contains("trade", "trade")
    ensures !Contains("depth5", "trade") && Contains("depth5", "depth")
  {
    assert Occurs("trade", "trade", 0);
    assert Occurs("depth5", "depth", 0);
    forall i | 0 <= i <= 6 ensures !Occurs("depth5", "trade", i) {
      assert i + 5 <= 6 ==> "depth5"[i..i + 5][0] == "depth5"[i];
    }
  }

  /** What goes to the exchange for a key: its symbol letter by letter, without upper case, and the suffix of
      its type. A key of any other type goes nowhere. */
  lemma StreamShape(key: string)
    requires |Split(key, ':')| >= 2
    ensures var tokens, stream := Split(key, ':'), KeyToStream(key);
            var n := |tokens[0]|;
            && (stream.Some? <==> tokens[1] in {"trade", "depth"})
            && (stream.Some? ==>
                  && |stream.value| > n
                  && stream.value[n..] == (if tokens[1] == "trade" then "@trade" else "@depth5")
                  && (forall i | 0 <= i < n :: var from, to := tokens[0][i], stream.value[i];
                        && !('A' <= to <= 'Z')
                        && (to == from || ('A' <= from <= 'Z' && to as int == from as int + 32))))
  {
    var tokens, stream := Split(key, ':'), KeyToStream(key);
    if stream.Some? {
      var lower, suffix := Lower(tokens[0]), "@" + StreamSuffix(StrToPriceType(tokens[1]).value);
      assert stream.value == lower + suffix;
      assert (lower + suffix)[|lower|..] == suffix;
    }
  }

  lemma StreamTokens(head: string, kind: PriceType)
    requires '\0' !in head
    ensures var stream := StreamName(head, kind);
            var tokens := Split(stream, '@');
            && CStr(stream) == stream
            && |tokens| >= 2 && tokens[0] <= head && '@' !in tokens[0]
            && ('@' !in head ==> tokens == [head, StreamSuffix(kind)])
  {
    PiecesWithoutSeparator(StreamName(head, kind), '\0');
    SplitJoined(head, '@', StreamSuffix(kind));
  }

  lemma StreamSplits(head: string, kind: PriceType) returns (x: string)
    requires '\0' !in head
    ensures x <= head && '@' !in x && ('@' !in head ==> x == head)
    ensures var key := StreamToKey(StreamName(head, kind));
            && (key.None? || key == Some(Upper(x) + ":" + "trade") || key == Some(Upper(x) + ":" + "depth"))
            && ('@' !in head ==> key == Some(Upper(x) + ":" + TypeName(kind)))
  {
    StreamTokens(head, kind);
    x := Split(StreamName(head, kind), '@')[0];
    StreamSuffixes();
  }

  /** The way back: the token before the first '@', upper-cased, and the type of the suffix. */
  lemma StreamReturns(head: string, kind: PriceType) returns (x: string)
    requires '\0' !in head
    ensures x <= Lower(head) && '@' !in x && ('@' !in head ==> x == Lower(head))
    ensures StreamToKey(StreamName(Lower(head), kind)).Some? ==>
              exists to :: StreamToKey(StreamName(Lower(head), kind)) == Some(Upper(x) + ":" + TypeName(to))
    ensures '@' !in head ==> StreamToKey(StreamName(Lower(head), kind)) == Some(Upper(x) + ":" + TypeName(kind))
  {
    CaseKeeps(head, '\0');
    CaseKeeps(head, '@');
    x := StreamSplits(Lower(head), kind);
    assert TypeName(Trade) == "trade" && TypeName(Depth) == "depth";
  }

  /** For every symbol a request can carry, key to stream and back is the identity exactly when the symbol
      is clean. */
  lemma RoundTrip(requested: string, kind: PriceType)
    ensures var symbol := CStr(requested);
            var key := symbol + ":" + TypeName(kind);
            && GenerateKey(Some(requested), Some(TypeName(kind))) == Some(key)
            && |Split(key, ':')| >= 2
            && ((KeyToStream(key).Some? && StreamToKey(KeyToStream(key).value) == Some(key)) <==> Clean(symbol))
            && (Clean(symbol) ==> KeyToStream(key) == Some(StreamName(Lower(symbol), kind)))
  {
    var symbol := CStr(requested);
    var key := symbol + ":" + TypeName(kind);
    FirstPiece(requested, '\0');
    SplitJoined(symbol, ':', TypeName(kind));
    UpperLower(symbol);
    if KeyToStream(key).Some? {
      var head, to := Split(key, ':')[0], StrToPriceType(Split(key, ':')[1]).value;
      var x := StreamReturns(head, to);
      if StreamToKey(KeyToStream(key).value) == Some(key) {
        ReturnedKeyIsClean(symbol, kind, head, x);
      }
    }
  }

  /** A returned key has one ':' and no '@', so it can only equal a key whose symbol has neither. */
  lemma ReturnedKeyIsClean(symbol: string, kind: PriceType, head: string, x: string)
    requires head <= symbol && ':' !in head && x <= Lower(head) && '@' !in x
    requires exists to :: symbol + ":" + TypeName(kind) == Upper(x) + ":" + TypeName(to)
    ensures symbol == Upper(x) && ':' !in symbol && '@' !in symbol
  {
    CaseKeeps(head, ':');
    CaseKeeps(x, ':');
    CaseKeeps(x, '@');
    var key := symbol + ":" + TypeName(kind);
    assert |x| <= |head| <= |symbol|;
    assert key[|x|] == ':';
    var to :| key == Upper(x) + ":" + TypeName(to);
    assert |TypeName(kind)| == |TypeName(to)| == 5;
    assert key[..|symbol|] == symbol && key[..|x|] == Upper(x);
  }

  /** Distinct clean keys are carried by distinct streams. */
  lemma DistinctKeysDistinctStreams(requested1: string, kind1: PriceType, requested2: string, kind2: PriceType)
    requires Clean(CStr(requested1)) && Clean(CStr(requested2))
    ensures var key1, key2 := CStr(requested1) + ":" + TypeName(kind1), CStr(requested2) + ":" + TypeName(kind2);
            && |Split(key1, ':')| >= 2 && |Split(key2, ':')| >= 2
            && KeyToStream(key1).Some? && KeyToStream(key2).Some?
            && (KeyToStream(key1) == KeyToStream(key2) ==> key1 == key2)
  {
    RoundTrip(requested1, kind1);
    RoundTrip(requested2, kind2);
  }
}
