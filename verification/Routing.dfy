/** Routing keys, and topic matching as section 3.1.3.3 of AMQP 0-9-1 defines it. */
module Routing {

  // ---------------------------------------------------------------- the key of a type

  /** ASCII lower case; letters outside ASCII are left as they are. */
  function Lower(c: char): char {
    if 'A' <= c <= 'Z' then (c as int + 32) as char else c
  }

  /** toLowerCase, then every '_' becomes '-'. */
  function KeyChar(c: char): char {
    if Lower(c) == '_' then '-' else Lower(c)
  }

  function KeyWord(kind: string): (w: string)
    ensures |w| == |kind|
    ensures forall i :: 0 <= i < |kind| ==> w[i] == KeyChar(kind[i])
  {
    if kind == "" then "" else [KeyChar(kind[0])] + KeyWord(kind[1..])
  }

  const INGEST := "ingest"

  function RoutingKeyFor(kind: string): string {
    INGEST + "." + KeyWord(kind)
  }

  /** The key of a type: "ingest." and the type, ASCII capitals lowered and underscores dashed. */
  lemma KeySpelled(kind: string)
    ensures var key := RoutingKeyFor(kind);
            && |key| == 7 + |kind| && key[..7] == "ingest."
            && forall i :: 0 <= i < |kind| ==>
                 && (kind[i] == '_' ==> key[7 + i] == '-')
                 && ('A' <= kind[i] <= 'Z' ==> key[7 + i] as int == kind[i] as int + 32)
                 && (kind[i] != '_' && !('A' <= kind[i] <= 'Z') ==> key[7 + i] == kind[i])
  {
    assert RoutingKeyFor(kind) == (INGEST + ".") + KeyWord(kind);
  }

  // ---------------------------------------------------------------- topic matching

  /** The words between the dots; there is always at least one, possibly empty. */
  function Words(key: string): (ws: seq<string>)
    ensures |ws| >= 1
    decreases |key|
  {
    if key == "" then [""]
    else
      var rest := Words(key[1..]);
      if key[0] == '.' then [""] + rest else [[key[0]] + rest[0]] + rest[1..]
  }

  /** '*' stands for exactly one word, '#' for zero or more. */
  predicate Matches(pattern: seq<string>, words: seq<string>)
    decreases |pattern| + |words|
  {
    if pattern == [] then words == []
    else if pattern[0] == "#" then
      Matches(pattern[1..], words) || (words != [] && Matches(pattern, words[1..]))
    else
      words != [] && (pattern[0] == "*" || pattern[0] == words[0]) && Matches(pattern[1..], words[1..])
  }

  predicate KeyMatches(pattern: string, key: string) {
    Matches(Words(pattern), Words(key))
  }

  lemma {:induction false} HashMatchesAll(words: seq<string>)
    ensures Matches(["#"], words)
    decreases |words|
  {
    assert ["#"][1..] == [];
    if words != [] { HashMatchesAll(words[1..]); }
  }

  /** A dot ends a word: the words of a + "." + b are those of a followed by those of b. */
  lemma {:induction false} WordsSplit(a: string, b: string)
    ensures Words(a + "." + b) == Words(a) + Words(b)
    decreases |a|
  {
    var key := a + "." + b;
    if a == "" {
      assert key[1..] == b;
    } else {
      WordsSplit(a[1..], b);
      assert key[0] == a[0] && key[1..] == a[1..] + "." + b;
      HeadWord(Words(a[1..]), Words(b), a[0]);
    }
  }

  /** Extending the head of a word list commutes with appending words. */
  lemma HeadWord(ws: seq<string>, more: seq<string>, c: char)
    requires |ws| >= 1
    ensures [""] + (ws + more) == ([""] + ws) + more
    ensures [[c] + (ws + more)[0]] + (ws + more)[1..] == ([[c] + ws[0]] + ws[1..]) + more
  {
    assert (ws + more)[1..] == ws[1..] + more;
  }

  lemma {:induction false} OneWord(w: string)
    requires '.' !in w
    ensures Words(w) == [w]
    decreases |w|
  {
    if w != "" {
      OneWord(w[1..]);
      assert [w[0]] + w[1..] == w;
    }
  }

  /** Everything under one first word: `w.#`. */
  function Under(w: string): string {
    w + "." + "#"
  }

  /** The binding `w.#` takes exactly the keys whose first word is w. */
  lemma UnderBinding(w: string, key: string)
    requires '.' !in w && w !in {"*", "#"}
    ensures KeyMatches(Under(w), key) <==> Words(key)[0] == w
  {
    WordsSplit(w, "#");
    OneWord(w);
    OneWord("#");
    hide Words;
    PatternUnder(w, Words(key));
  }

  lemma PatternUnder(w: string, words: seq<string>)
    requires w !in {"*", "#"} && |words| >= 1
    ensures Matches([w] + ["#"], words) <==> words[0] == w
  {
    assert ([w] + ["#"])[1..] == ["#"];
    HashMatchesAll(words[1..]);
  }

  /** A pattern without wildcards takes its own key and no other. */
  lemma {:induction false} LiteralMatches(pattern: seq<string>, words: seq<string>)
    requires "#" !in pattern && "*" !in pattern
    ensures Matches(pattern, words) <==> pattern == words
    decreases |pattern|
  {
    if pattern != [] && words != [] {
      LiteralMatches(pattern[1..], words[1..]);
      assert pattern == [pattern[0]] + pattern[1..] && words == [words[0]] + words[1..];
    }
  }

  /** Every type, with whatever characters, is routable to the ingest queue; so is the bare DLX key. */
  lemma EveryTypeRoutes(kind: string)
    ensures KeyMatches(Under(INGEST), RoutingKeyFor(kind))
    ensures KeyMatches(Under(INGEST), INGEST)
  {
    hide KeyMatches, Words, KeyWord;
    UnderBinding(INGEST, RoutingKeyFor(kind));
    UnderBinding(INGEST, INGEST);
    WordsSplit(INGEST, KeyWord(kind));
    OneWord(INGEST);
  }

  predicate UpperSnake(kind: string) {
    forall c :: c in kind ==> 'A' <= c <= 'Z' || c == '_'
  }

  lemma KeyCharInjective(c: char, d: char)
    requires 'A' <= c <= 'Z' || c == '_'
    requires 'A' <= d <= 'Z' || d == '_'
    requires KeyChar(c) == KeyChar(d)
    ensures c == d
  {
  }

  lemma KeyWordInjective(a: string, b: string)
    requires UpperSnake(a) && UpperSnake(b) && KeyWord(a) == KeyWord(b)
    ensures a == b
  {
    assert |a| == |KeyWord(a)| == |KeyWord(b)| == |b|;
    forall i | 0 <= i < |a| ensures a[i] == b[i] {
      assert KeyWord(a)[i] == KeyChar(a[i]) && KeyWord(b)[i] == KeyChar(b[i]);
      assert a[i] in a && b[i] in b;
      KeyCharInjective(a[i], b[i]);
    }
  }

  /** On the catalog's alphabet the key determines the type. */
  lemma KeysAreInjective(a: string, b: string)
    requires UpperSnake(a) && UpperSnake(b) && RoutingKeyFor(a) == RoutingKeyFor(b)
    ensures a == b
  {
    var p := INGEST + ".";
    SuffixEqual(p, KeyWord(a), KeyWord(b));
    KeyWordInjective(a, b);
  }

  lemma SuffixEqual(p: string, x: string, y: string)
    requires p + x == p + y
    ensures x == y
  {
    assert (p + x)[|p|..] == x && (p + y)[|p|..] == y;
  }

  /** Off that alphabet it does not: a type that already uses '-' collides with its underscore form. */
  lemma KeysCollide()
    ensures RoutingKeyFor("A-B") == RoutingKeyFor("A_B")
  {
    assert KeyWord("A-B") == KeyWord("A_B");
  }
}
