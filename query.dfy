/**
  The query-string reading of `urllib.parse.parse_qs(query, keep_blank_values=True)`
  followed by the lookup helper `g(k, d) = params.get(k, [d])[0]`.

  The query is split on `&`; empty segments are skipped; each segment is cut at its
  first `=`, and a segment without `=` stands for a blank value. Names and values are
  then decoded (`+` to space and percent-decoding); that decoding is a parameter here.
  The dictionary of lists that `parse_qs` builds is kept as the ordered list of pairs
  it is built from: the first value of a key is the value of its first pair.
 */
module Query {
  import opened Wrappers
  import opened Text

  /** The decoding applied to every name and value. */
  type Decoder = string -> string

  /** A decoded `(name, value)` pair. */
  type Pair = (string, string)

  /** A string that `+`-to-space and percent-decoding leave as it is. */
  predicate Plain(s: string) {
    '%' !in s && '+' !in s
  }

  /** Decoding leaves plain strings unchanged, as percent-decoding and `+`-to-space do. */
  ghost predicate KeepsPlain(decode: Decoder) {
    forall s :: Plain(s) ==> decode(s) == s
  }

  /** One non-empty segment: cut at the first `=`; without one, the value is blank. */
  function ParsePair(segment: string, decode: Decoder): Pair
  {
    match SplitFirst(segment, '=')
    case Some((name, value)) => (decode(name), decode(value))
    case None => (decode(segment), decode(""))
  }

  /** Parses the segments in order, skipping the empty ones. */
  function ParseSegments(segments: seq<string>, decode: Decoder): (pairs: seq<Pair>)
    ensures |pairs| <= |segments|
  {
    if segments == [] then []
    else
      (if segments[0] == "" then [] else [ParsePair(segments[0], decode)])
      + ParseSegments(segments[1..], decode)
  }

  /** An empty segment contributes no pair. */
  lemma {:induction false} ParseSegmentsSkipsEmpty(a: seq<string>, b: seq<string>, decode: Decoder)
    ensures ParseSegments(a + [""] + b, decode) == ParseSegments(a + b, decode)
  {
    if a == [] {
      assert a + [""] + b == [""] + b && a + b == b;
      assert ([""] + b)[0] == "" && ([""] + b)[1..] == b;
    } else {
      ParseSegmentsSkipsEmpty(a[1..], b, decode);
      assert (a + [""] + b)[0] == a[0] && (a + [""] + b)[1..] == a[1..] + [""] + b;
      assert (a + b)[0] == a[0] && (a + b)[1..] == a[1..] + b;
    }
  }

  /** A segment without `=` is a name with a blank value. */
  lemma ParsePairBlank(segment: string, decode: Decoder)
    requires '=' !in segment && KeepsPlain(decode)
    ensures ParsePair(segment, decode) == (decode(segment), "")
  {
    assert Plain("");
  }

  /** `parse_qsl(query, keep_blank_values=True)`: the decoded pairs in their order. */
  function ParseQuery(query: string, decode: Decoder): seq<Pair>
  {
    ParseSegments(Split(query, '&'), decode)
  }

  /** Position of the first pair named `key`, if any. */
  function KeyIndex(pairs: seq<Pair>, key: string): (r: Option<nat>)
    ensures r.None? <==> forall i :: 0 <= i < |pairs| ==> pairs[i].0 != key
    ensures r.Some? ==> r.value < |pairs| && pairs[r.value].0 == key
    ensures r.Some? ==> forall j :: 0 <= j < r.value ==> pairs[j].0 != key
  {
    if pairs == [] then None
    else if pairs[0].0 == key then Some(0)
    else
      match KeyIndex(pairs[1..], key)
      case None => None
      case Some(i) =>
        assert forall j :: 1 <= j < i + 1 ==> pairs[j] == pairs[1..][j - 1];
        Some(i + 1)
  }

  /** `g(key, default)`: the first value given for `key`, or `default` when `key` is absent. */
  function Get(pairs: seq<Pair>, key: string, default: string): (v: string)
    ensures (forall i :: 0 <= i < |pairs| ==> pairs[i].0 != key) ==> v == default
    ensures forall i :: 0 <= i < |pairs| && pairs[i].0 == key ==>
              (forall j :: 0 <= j < i ==> pairs[j].0 != key) ==> v == pairs[i].1
  {
    match KeyIndex(pairs, key)
    case None => default
    case Some(i) => pairs[i].1
  }

  /** Pairs whose keys are all different. */
  predicate DistinctKeys(pairs: seq<Pair>) {
    forall i, j :: 0 <= i < j < |pairs| ==> pairs[i].0 != pairs[j].0
  }

  /** With distinct keys, each key looks up its own value. */
  lemma GetDistinct(pairs: seq<Pair>, i: nat, default: string)
    requires DistinctKeys(pairs) && i < |pairs|
    ensures Get(pairs, pairs[i].0, default) == pairs[i].1
  {
  }

  /** A key no pair carries looks up the default. */
  lemma GetAbsent(pairs: seq<Pair>, key: string, default: string)
    requires forall i :: 0 <= i < |pairs| ==> pairs[i].0 != key
    ensures Get(pairs, key, default) == default
  {
  }

  /** A key given earlier hides every later value given for it. */
  lemma GetFirstWins(pairs: seq<Pair>, later: seq<Pair>, key: string, default: string)
    requires exists i :: 0 <= i < |pairs| && pairs[i].0 == key
    ensures Get(pairs + later, key, default) == Get(pairs, key, default)
  {
    var i := KeyIndex(pairs, key).value;
    assert (pairs + later)[i] == pairs[i];
  }

  /** Pairs for other keys in front of `key`'s pairs do not matter. */
  lemma GetSkipsOthers(others: seq<Pair>, pairs: seq<Pair>, key: string, default: string)
    requires forall i :: 0 <= i < |others| ==> others[i].0 != key
    ensures Get(others + pairs, key, default) == Get(pairs, key, default)
  {
    var all := others + pairs;
    match KeyIndex(pairs, key)
    case None =>
      assert forall i :: 0 <= i < |all| ==> all[i].0 != key;
    case Some(k) =>
      assert all[|others| + k] == pairs[k];
      assert forall j :: 0 <= j < |others| + k ==> all[j].0 != key;
  }

  /** `name=value` with a `=`-free name reads back as the decoded name and value. */
  lemma ParsePairAt(name: string, value: string, decode: Decoder)
    requires '=' !in name
    ensures ParsePair(name + "=" + value, decode) == (decode(name), decode(value))
  {
    SplitFirstAt(name, '=', value);
  }

  /** The segment `name=value` that `Encode` writes for one pair. */
  function Segment(p: Pair): string {
    p.0 + "=" + p.1
  }

  /** `urlencode` for pairs that need no escaping: `name=value` segments joined by `&`. */
  function Encode(pairs: seq<Pair>): string
  {
    Join(seq(|pairs|, i requires 0 <= i < |pairs| => Segment(pairs[i])), '&')
  }

  /** Names and values that `Encode` can write without escaping and that read back unchanged. */
  predicate Encodable(pairs: seq<Pair>) {
    forall i :: 0 <= i < |pairs| ==>
      '=' !in pairs[i].0 && '&' !in pairs[i].0 && Plain(pairs[i].0)
      && '&' !in pairs[i].1 && Plain(pairs[i].1)
  }

  lemma {:induction false} ParseSegmentsOfPairs(pairs: seq<Pair>, decode: Decoder)
    requires Encodable(pairs) && KeepsPlain(decode)
    ensures ParseSegments(seq(|pairs|, i requires 0 <= i < |pairs| => Segment(pairs[i])), decode) == pairs
  {
    var segs := seq(|pairs|, i requires 0 <= i < |pairs| => Segment(pairs[i]));
    if pairs != [] {
      assert ParsePair(segs[0], decode) == pairs[0] by {
        ParsePairAt(pairs[0].0, pairs[0].1, decode);
      }
      assert segs[0] != "" by { assert segs[0][|pairs[0].0|] == '='; }
      assert ParseSegments(segs[1..], decode) == pairs[1..] by {
        assert segs[1..] == seq(|pairs[1..]|, i requires 0 <= i < |pairs[1..]| => Segment(pairs[1..][i]));
        ParseSegmentsOfPairs(pairs[1..], decode);
      }
      assert pairs == [pairs[0]] + pairs[1..];
    }
  }

  /** Reading an encoded query gives back exactly its pairs, in order. */
  lemma ParseQueryEncode(pairs: seq<Pair>, decode: Decoder)
    requires Encodable(pairs) && KeepsPlain(decode)
    ensures ParseQuery(Encode(pairs), decode) == pairs
  {
    var segs := seq(|pairs|, i requires 0 <= i < |pairs| => Segment(pairs[i]));
    if pairs == [] {
      assert Encode(pairs) == "";
      assert Split("", '&') == [""];
    } else {
      forall i | 0 <= i < |segs| ensures '&' !in segs[i] {
        assert segs[i] == pairs[i].0 + "=" + pairs[i].1;
      }
      SplitJoin(segs, '&');
      ParseSegmentsOfPairs(pairs, decode);
    }
  }

  /** An empty query yields no pairs, so every lookup falls back to its default. */
  lemma ParseQueryEmpty(decode: Decoder)
    ensures ParseQuery("", decode) == []
  {
    assert Split("", '&') == [""];
  }
}
