/**
 * The query-string scheme every history-style route follows: an ordered list of optional
 * filters, one `key=value` piece per filter that is set, in the list's order, joined with '&'
 * and prefixed by a single '?' — and nothing at all when no filter is set. Values are
 * interpolated as they are, without percent-encoding.
 *
 * `DecodeQuery` is the receiving side: what a server reads back from such a query (split on
 * '&', then each piece on its first '=').
 */
module Query {
  import opened Wrappers
  import opened Text

  /** One filter: its wire key and, when the caller set it, its rendered value. */
  datatype Field = Field(key: string, value: Option<string>)

  /** The (key, value) pairs of the filters that are set, in field order. */
  function SetPairs(fs: seq<Field>): (r: seq<(string, string)>)
    ensures |r| <= |fs|
  {
    if fs == [] then []
    else
      (match fs[0].value
       case Some(v) => [(fs[0].key, v)]
       case None => [])
      + SetPairs(fs[1..])
  }

  /** `format!("{key}={value}")`. */
  function Render(kv: (string, string)): string {
    kv.0 + "=" + kv.1
  }

  function RenderAll(ps: seq<(string, string)>): (r: seq<string>)
    ensures |r| == |ps|
  {
    if ps == [] then [] else [Render(ps[0])] + RenderAll(ps[1..])
  }

  /** Empty when there are no pieces, otherwise '?' and the pieces joined with '&'. */
  function QueryString(pieces: seq<string>): string {
    if pieces == [] then "" else "?" + Join(pieces, '&')
  }

  /** The query a route appends for these filters. */
  function Encode(fs: seq<Field>): string {
    QueryString(RenderAll(SetPairs(fs)))
  }

  /** `format!("{x}")` of a `u64`. */
  function ShowU64(x: UInt64): string { NatToString(x) }

  /** `format!("{x}")` of an `i64`. */
  function ShowI64(x: Int64): string { IntToString(x) }

  function Keys(ps: seq<(string, string)>): (r: seq<string>)
    ensures |r| == |ps|
  {
    if ps == [] then [] else [ps[0].0] + Keys(ps[1..])
  }

  /** The keys of the filters, in order. */
  function FieldKeys(fs: seq<Field>): (r: seq<string>)
    ensures |r| == |fs| && forall i :: 0 <= i < |fs| ==> r[i] == fs[i].key
  {
    seq(|fs|, i requires 0 <= i < |fs| => fs[i].key)
  }

  /** The number of filters that are set. */
  function NumSet(fs: seq<Field>): nat {
    if fs == [] then 0 else (if fs[0].value.Some? then 1 else 0) + NumSet(fs[1..])
  }

  /** The number of pairs whose key is `k`. */
  function Occurrences(ps: seq<(string, string)>, k: string): nat {
    if ps == [] then 0 else (if ps[0].0 == k then 1 else 0) + Occurrences(ps[1..], k)
  }

  /** `a` is `b` with some elements left out, the rest in the same order. */
  predicate IsSubsequence(a: seq<string>, b: seq<string>)
    decreases |b|
  {
    if b == [] then a == []
    else (a != [] && a[0] == b[0] && IsSubsequence(a[1..], b[1..])) || IsSubsequence(a, b[1..])
  }

  predicate DistinctKeys(fs: seq<Field>) {
    forall i, j :: 0 <= i < j < |fs| ==> fs[i].key != fs[j].key
  }

  /** A key a server can read back: non-empty, free of the separators. */
  predicate GoodKey(k: string) {
    k != [] && '&' !in k && '=' !in k && '?' !in k
  }

  predicate GoodKeys(fs: seq<Field>) {
    forall i :: 0 <= i < |fs| ==> GoodKey(fs[i].key)
  }

  /**
   * A route's key table: the keys of its filters in order, distinct and readable, so the
   * filters are distinct and readable whatever their values.
   */
  lemma KeyTable(fs: seq<Field>, keys: seq<string>)
    requires FieldKeys(fs) == keys && Distinct(keys)
    requires forall i :: 0 <= i < |keys| ==> GoodKey(keys[i])
    ensures DistinctKeys(fs) && GoodKeys(fs)
  {
    assert forall i :: 0 <= i < |fs| ==> fs[i].key == keys[i];
  }

  /** No set value contains `c`. */
  predicate ValuesFree(fs: seq<Field>, c: char) {
    forall i :: 0 <= i < |fs| && fs[i].value.Some? ==> c !in fs[i].value.value
  }

  /** A piece `key=value` split at its first '='; no '=' means an empty value. */
  function KeyValue(piece: string): (string, string) {
    var i := IndexOf(piece, '=');
    (piece[..i], if i < |piece| then piece[i + 1..] else "")
  }

  function KeyValues(pieces: seq<string>): (r: seq<(string, string)>)
    ensures |r| == |pieces|
  {
    if pieces == [] then [] else [KeyValue(pieces[0])] + KeyValues(pieces[1..])
  }

  /** What a server reads from a query string: nothing unless it starts with '?'. */
  function DecodeQuery(q: string): seq<(string, string)> {
    if q == [] || q[0] != '?' then [] else KeyValues(Split(q[1..], '&'))
  }

  // ---- Lemmas about the encoder ----

  lemma {:induction false} SetPairsAppend(a: seq<Field>, b: seq<Field>)
    ensures SetPairs(a + b) == SetPairs(a) + SetPairs(b)
  {
    if a == [] {
      assert a + b == b;
    } else {
      assert (a + b)[0] == a[0] && (a + b)[1..] == a[1..] + b;
      SetPairsAppend(a[1..], b);
    }
  }

  lemma {:induction false} RenderAllAppend(a: seq<(string, string)>, b: seq<(string, string)>)
    ensures RenderAll(a + b) == RenderAll(a) + RenderAll(b)
  {
    if a == [] {
      assert a + b == b;
    } else {
      assert (a + b)[0] == a[0] && (a + b)[1..] == a[1..] + b;
      RenderAllAppend(a[1..], b);
    }
  }

  /** The pieces of the filters `a + [f]` are those of `a` and then `f`'s, if it is set. */
  lemma PiecesSnoc(a: seq<Field>, f: Field)
    ensures RenderAll(SetPairs(a + [f])) == RenderAll(SetPairs(a)) +
      (if f.value.Some? then [f.key + "=" + f.value.value] else [])
  {
    SetPairsAppend(a, [f]);
    assert SetPairs([f]) == (if f.value.Some? then [(f.key, f.value.value)] else []) by {
      assert [f][1..] == [];
    }
    RenderAllAppend(SetPairs(a), SetPairs([f]));
  }

  /**
   * One more filter at the end: nothing changes when it is unset; otherwise its piece is
   * appended after a '&', or after the '?' when it is the first piece.
   */
  lemma EncodeSnoc(fs: seq<Field>, f: Field)
    ensures Encode(fs + [f]) == if f.value.None? then Encode(fs)
      else (if Encode(fs) == "" then "?" else Encode(fs) + "&") + f.key + "=" + f.value.value
  {
    PiecesSnoc(fs, f);
    var pieces := RenderAll(SetPairs(fs));
    assert Encode(fs) == QueryString(pieces);
    if f.value.Some? {
      var piece := f.key + "=" + f.value.value;
      assert RenderAll(SetPairs(fs + [f])) == pieces + [piece];
      if pieces == [] {
        assert pieces + [piece] == [piece];
        assert Encode(fs + [f]) == "?" + piece;
      } else {
        JoinSnoc(pieces, piece, '&');
        assert Encode(fs + [f]) == "?" + Join(pieces, '&') + "&" + piece;
        assert Encode(fs) != "";
      }
    } else {
      assert pieces + [] == pieces;
    }
  }

  /** With exactly the filters at `i` and `j` set, the query holds their two pieces, in order. */
  lemma EncodeTwo(fs: seq<Field>, i: nat, j: nat)
    requires i < j < |fs| && fs[i].value.Some? && fs[j].value.Some?
    requires forall k :: 0 <= k < |fs| && k != i && k != j ==> fs[k].value.None?
    ensures Encode(fs) == "?" + fs[i].key + "=" + fs[i].value.value + "&" + fs[j].key + "=" + fs[j].value.value
  {
    SetPairsTwo(fs, i, j);
    var ps := [(fs[i].key, fs[i].value.value), (fs[j].key, fs[j].value.value)];
    assert ps[1..] == [ps[1]] && ps[1..][1..] == [];
    var pieces := [Render(ps[0]), Render(ps[1])];
    assert RenderAll(ps) == pieces;
    assert pieces[1..] == [pieces[1]];
    assert Join(pieces, '&') == pieces[0] + "&" + pieces[1];
  }

  lemma {:induction false} SetPairsOne(fs: seq<Field>, i: nat)
    requires i < |fs| && fs[i].value.Some?
    requires forall k :: 0 <= k < |fs| && k != i ==> fs[k].value.None?
    ensures SetPairs(fs) == [(fs[i].key, fs[i].value.value)]
  {
    if i == 0 {
      SetPairsEmpty(fs[1..]);
    } else {
      SetPairsOne(fs[1..], i - 1);
    }
  }

  lemma {:induction false} SetPairsTwo(fs: seq<Field>, i: nat, j: nat)
    requires i < j < |fs| && fs[i].value.Some? && fs[j].value.Some?
    requires forall k :: 0 <= k < |fs| && k != i && k != j ==> fs[k].value.None?
    ensures SetPairs(fs) == [(fs[i].key, fs[i].value.value), (fs[j].key, fs[j].value.value)]
  {
    if i == 0 {
      SetPairsOne(fs[1..], j - 1);
    } else {
      SetPairsTwo(fs[1..], i - 1, j - 1);
    }
  }

  /**
   * The text `url.push_str(&format!("&{key}={x}"))` adds for each filter that is set, in
   * order: what the routes with a mandatory first parameter append after it.
   */
  function Suffixes(gs: seq<Field>): string {
    if gs == [] then "" else Suffix(gs[0]) + Suffixes(gs[1..])
  }

  /** The suffix one filter adds: `&key=value` when it is set, nothing otherwise. */
  function Suffix(g: Field): string {
    if g.value.Some? then "&" + g.key + "=" + g.value.value else ""
  }

  /** After a non-empty query, one more filter adds exactly its suffix. */
  lemma SuffixStep(fs: seq<Field>, g: Field, next: seq<Field>)
    requires next == fs + [g] && Encode(fs) != ""
    ensures Encode(next) == Encode(fs) + Suffix(g)
  {
    EncodeSnoc(fs, g);
    if g.value.Some? {
      assert Encode(fs) + "&" + g.key + "=" + g.value.value == Encode(fs) + ("&" + g.key + "=" + g.value.value);
    } else {
      assert Encode(fs) + "" == Encode(fs);
    }
  }

  /** After a non-empty query `fs`, the further filters `gs` add exactly their suffixes. */
  lemma {:induction false} EncodeThenSuffixes(fs: seq<Field>, gs: seq<Field>, all: seq<Field>)
    requires all == fs + gs && Encode(fs) != ""
    ensures Encode(all) == Encode(fs) + Suffixes(gs)
    decreases |gs|
  {
    if gs == [] {
      assert all == fs;
    } else {
      var fs' := fs + [gs[0]];
      var e, s0, rest := Encode(fs), Suffix(gs[0]), Suffixes(gs[1..]);
      SuffixStep(fs, gs[0], fs');
      assert all == fs' + gs[1..];
      EncodeThenSuffixes(fs', gs[1..], all);
      Regroup(e, s0, rest, Encode(fs'), Encode(all));
    }
  }

  lemma Regroup(a: string, b: string, c: string, ab: string, abc: string)
    requires ab == a + b && abc == ab + c
    ensures abc == a + (b + c)
  {
  }

  /** The same, once the prefix query and the suffix text are known. */
  lemma PrefixThenSuffixes(fs: seq<Field>, gs: seq<Field>, head: string, tail: string)
    requires Encode(fs) == head && head != "" && Suffixes(gs) == tail
    ensures Encode(fs + gs) == head + tail
  {
    EncodeThenSuffixes(fs, gs, fs + gs);
  }

  /** No suffix at all exactly when none of the optional filters is set. */
  lemma {:induction false} SuffixesEmpty(gs: seq<Field>)
    ensures Suffixes(gs) == "" <==> forall i :: 0 <= i < |gs| ==> gs[i].value.None?
  {
    if gs != [] {
      SuffixesEmpty(gs[1..]);
      assert forall i :: 1 <= i < |gs| ==> gs[i] == gs[1..][i - 1];
    }
  }

  /** A single filter that is set: `?key=value` (`head` is the literal `?key=`). */
  lemma EncodeOne(key: string, v: string, head: string)
    requires head == "?" + key + "="
    ensures Encode([Field(key, Some(v))]) == head + v
  {
    EncodeSnoc([], Field(key, Some(v)));
    assert [] + [Field(key, Some(v))] == [Field(key, Some(v))];
  }

  /** A server reads the one pair of a single-parameter query back. */
  lemma DecodeOne(key: string, v: string, head: string)
    requires GoodKey(key) && '&' !in v && head == "?" + key + "="
    ensures DecodeQuery(head + v) == [(key, v)]
  {
    var fs := [Field(key, Some(v))];
    EncodeOne(key, v, head);
    DecodeEncode(fs);
    assert fs[1..] == [];
  }

  /**
   * `q` holds the pieces of the first `n` filters: the state of `query_vec` after `n` steps:
   * an unset filter leaves it as it was, a set one adds its `key=value` piece at the end.
   */
  predicate Pushed(q: seq<string>, fs: seq<Field>, n: nat)
    requires n <= |fs|
  {
    if n == 0 then q == []
    else match fs[n - 1].value
      case None => Pushed(q, fs, n - 1)
      case Some(v) => q != [] && q[|q| - 1] == Render((fs[n - 1].key, v)) && Pushed(q[..|q| - 1], fs, n - 1)
  }

  /** After `n` push steps, the vector holds exactly the encoder's pieces of the first `n` filters. */
  lemma {:induction false} PushedPrefix(q: seq<string>, fs: seq<Field>, n: nat)
    requires n <= |fs| && Pushed(q, fs, n)
    ensures q == RenderAll(SetPairs(fs[..n]))
  {
    if n > 0 {
      assert fs[..n] == fs[..n - 1] + [fs[n - 1]];
      PiecesSnoc(fs[..n - 1], fs[n - 1]);
      if fs[n - 1].value.Some? {
        PushedPrefix(q[..|q| - 1], fs, n - 1);
        assert q == q[..|q| - 1] + [q[|q| - 1]];
      } else {
        PushedPrefix(q, fs, n - 1);
      }
    }
  }

  /** After the last push step, the vector holds the encoder's pieces of all the filters. */
  lemma PushedAll(q: seq<string>, fs: seq<Field>)
    requires Pushed(q, fs, |fs|)
    ensures q == RenderAll(SetPairs(fs))
  {
    PushedPrefix(q, fs, |fs|);
    assert fs[..|fs|] == fs;
  }

  /**
   * `if let Some(x) = value { query_vec.push(format!("{key}={x}")) }` for the filter at position
   * `k` of `all`: the vector goes from `k` push steps to `k + 1`.
   */
  method PushIfSet(queryVec: seq<string>, key: string, value: Option<string>, ghost all: seq<Field>, ghost k: nat)
    returns (r: seq<string>)
    requires k < |all| && all[k] == Field(key, value)
    requires Pushed(queryVec, all, k)
    ensures Pushed(r, all, k + 1)
  {
    r := queryVec;
    if value.Some? {
      r := r + [key + "=" + value.value];
      assert r[..|r| - 1] == queryVec;
    }
  }

  /**
   * `if let Some(x) = value { url.push_str(&format!("&{key}={x}")) }` after a query that
   * already has a piece: the URL stays `prefix` followed by the encoding of the filters so far.
   */
  method AppendIfSet(url: string, key: string, value: Option<string>, ghost prefix: string, ghost done: seq<Field>)
    returns (r: string)
    requires url == prefix + Encode(done) && Encode(done) != ""
    ensures r == prefix + Encode(done + [Field(key, value)]) && Encode(done + [Field(key, value)]) != ""
  {
    ghost var next := done + [Field(key, value)];
    SuffixStep(done, Field(key, value), next);
    r := url;
    if value.Some? {
      r := r + "&" + key + "=" + value.value;
      assert r == prefix + (Encode(done) + ("&" + key + "=" + value.value));
    } else {
      assert r == prefix + (Encode(done) + "");
    }
  }

  /** The query is empty exactly when no filter is set. */
  lemma {:induction false} EncodeEmpty(fs: seq<Field>)
    ensures Encode(fs) == "" <==> forall i :: 0 <= i < |fs| ==> fs[i].value.None?
  {
    SetPairsEmpty(fs);
  }

  lemma {:induction false} SetPairsEmpty(fs: seq<Field>)
    ensures SetPairs(fs) == [] <==> forall i :: 0 <= i < |fs| ==> fs[i].value.None?
  {
    if fs != [] {
      SetPairsEmpty(fs[1..]);
      assert forall i :: 1 <= i < |fs| ==> fs[i] == fs[1..][i - 1];
    }
  }

  /** One pair per set filter. */
  lemma {:induction false} SetPairsCount(fs: seq<Field>)
    ensures |SetPairs(fs)| == NumSet(fs)
  {
    if fs != [] {
      SetPairsCount(fs[1..]);
    }
  }

  /** Every pair comes from a set filter, and every set filter gives its pair. */
  lemma {:induction false} SetPairsMembers(fs: seq<Field>, k: string, v: string)
    ensures (k, v) in SetPairs(fs) <==> Field(k, Some(v)) in fs
  {
    if fs != [] {
      SetPairsMembers(fs[1..], k, v);
      assert fs == [fs[0]] + fs[1..];
    }
  }

  /**
   * With distinct keys, a filter's key occurs once among the pairs when it is set and not at
   * all when it is not: the encoder never invents a value for an unset filter.
   */
  lemma {:induction false} SetPairsOccurrences(fs: seq<Field>, i: nat)
    requires DistinctKeys(fs) && i < |fs|
    ensures Occurrences(SetPairs(fs), fs[i].key) == if fs[i].value.Some? then 1 else 0
  {
    var k := fs[i].key;
    OccurrencesAppend(
      (match fs[0].value case Some(v) => [(fs[0].key, v)] case None => []),
      SetPairs(fs[1..]), k);
    if i == 0 {
      AbsentKey(fs[1..], k);
    } else {
      assert DistinctKeys(fs[1..]) by {
        forall a, b | 0 <= a < b < |fs[1..]| ensures fs[1..][a].key != fs[1..][b].key {
          assert fs[1..][a] == fs[a + 1] && fs[1..][b] == fs[b + 1];
        }
      }
      SetPairsOccurrences(fs[1..], i - 1);
    }
  }

  lemma {:induction false} OccurrencesAppend(a: seq<(string, string)>, b: seq<(string, string)>, k: string)
    ensures Occurrences(a + b, k) == Occurrences(a, k) + Occurrences(b, k)
  {
    if a == [] {
      assert a + b == b;
    } else {
      assert (a + b)[0] == a[0] && (a + b)[1..] == a[1..] + b;
      OccurrencesAppend(a[1..], b, k);
    }
  }

  lemma {:induction false} AbsentKey(fs: seq<Field>, k: string)
    requires forall j :: 0 <= j < |fs| ==> fs[j].key != k
    ensures Occurrences(SetPairs(fs), k) == 0
  {
    if fs != [] {
      OccurrencesAppend(
        (match fs[0].value case Some(v) => [(fs[0].key, v)] case None => []),
        SetPairs(fs[1..]), k);
      AbsentKey(fs[1..], k);
    }
  }

  /** The keys of the pairs follow the fixed field order, whichever filters are set. */
  lemma {:induction false} KeysInFieldOrder(fs: seq<Field>)
    ensures IsSubsequence(Keys(SetPairs(fs)), FieldKeys(fs))
  {
    if fs != [] {
      KeysInFieldOrder(fs[1..]);
      assert FieldKeys(fs)[1..] == FieldKeys(fs[1..]);
      if fs[0].value.Some? {
        assert SetPairs(fs) == [(fs[0].key, fs[0].value.value)] + SetPairs(fs[1..]);
        assert Keys(SetPairs(fs))[1..] == Keys(SetPairs(fs[1..]));
      } else {
        assert SetPairs(fs) == SetPairs(fs[1..]);
      }
    }
  }

  // ---- The receiving side ----

  lemma KeyValueRender(kv: (string, string))
    requires '=' !in kv.0
    ensures KeyValue(Render(kv)) == kv
  {
    IndexOfAfter(kv.0, '=', kv.1);
    var piece := Render(kv);
    assert piece[..|kv.0|] == kv.0;
    assert piece[|kv.0| + 1..] == kv.1;
  }

  lemma {:induction false} KeyValuesRenderAll(ps: seq<(string, string)>)
    requires forall i :: 0 <= i < |ps| ==> '=' !in ps[i].0
    ensures KeyValues(RenderAll(ps)) == ps
  {
    if ps != [] {
      KeyValueRender(ps[0]);
      KeyValuesRenderAll(ps[1..]);
    }
  }

  lemma {:induction false} SetPairsKeysFree(fs: seq<Field>, c: char)
    requires forall i :: 0 <= i < |fs| ==> c !in fs[i].key
    ensures forall i :: 0 <= i < |SetPairs(fs)| ==> c !in SetPairs(fs)[i].0
  {
    if fs != [] {
      SetPairsKeysFree(fs[1..], c);
    }
  }

  lemma {:induction false} SetPairsValuesFree(fs: seq<Field>, c: char)
    requires ValuesFree(fs, c)
    ensures forall i :: 0 <= i < |SetPairs(fs)| ==> c !in SetPairs(fs)[i].1
  {
    if fs != [] {
      assert ValuesFree(fs[1..], c) by {
        forall i | 0 <= i < |fs[1..]| && fs[1..][i].value.Some?
          ensures c !in fs[1..][i].value.value
        {
          assert fs[1..][i] == fs[i + 1];
        }
      }
      SetPairsValuesFree(fs[1..], c);
    }
  }

  lemma {:induction false} RenderAllFree(ps: seq<(string, string)>, c: char)
    requires c != '='
    requires forall i :: 0 <= i < |ps| ==> c !in ps[i].0 && c !in ps[i].1
    ensures forall i :: 0 <= i < |RenderAll(ps)| ==> c !in RenderAll(ps)[i]
  {
    if ps != [] {
      RenderAllFree(ps[1..], c);
    }
  }

  /**
   * Round trip: when no value contains '&', a server reads back exactly the (key, value)
   * pairs of the set filters, in field order.
   */
  lemma DecodeEncode(fs: seq<Field>)
    requires GoodKeys(fs) && ValuesFree(fs, '&')
    ensures DecodeQuery(Encode(fs)) == SetPairs(fs)
  {
    var ps := SetPairs(fs);
    SetPairsKeysFree(fs, '&');
    SetPairsValuesFree(fs, '&');
    SetPairsKeysFree(fs, '=');
    var pieces := RenderAll(ps);
    if ps != [] {
      RenderAllFree(ps, '&');
      SplitJoin(pieces, '&');
      KeyValuesRenderAll(ps);
    }
  }

  lemma {:induction false} RenderAllShape(ps: seq<(string, string)>)
    requires forall i :: 0 <= i < |ps| ==> ps[i].0 != []
    ensures forall i :: 0 <= i < |RenderAll(ps)| ==>
      RenderAll(ps)[i] != [] && RenderAll(ps)[i][0] == ps[i].0[0]
  {
    if ps != [] {
      RenderAllShape(ps[1..]);
    }
  }

  /**
   * A non-empty query has exactly one '?', in front, and its '&'s are exactly the separators
   * between pairs: one fewer than the set filters, none leading and none trailing. This
   * needs the values to be free of '?' and '&', since they are not escaped.
   */
  lemma QueryShape(fs: seq<Field>)
    requires GoodKeys(fs) && ValuesFree(fs, '?') && ValuesFree(fs, '&')
    requires Encode(fs) != ""
    ensures Encode(fs)[0] == '?' && Count(Encode(fs), '?') == 1
    ensures Count(Encode(fs), '&') == NumSet(fs) - 1
    ensures |Encode(fs)| >= 2 && Encode(fs)[1] != '&' && Encode(fs)[|Encode(fs)| - 1] != '&'
  {
    var ps := SetPairs(fs);
    var pieces := RenderAll(ps);
    var q := Encode(fs);
    SetPairsKeysFree(fs, '&');
    SetPairsKeysFree(fs, '?');
    SetPairsValuesFree(fs, '&');
    SetPairsValuesFree(fs, '?');
    RenderAllFree(ps, '&');
    RenderAllFree(ps, '?');
    CountJoin(pieces, '&', '?');
    CountJoin(pieces, '&', '&');
    CountAppend("?", Join(pieces, '&'), '?');
    CountAppend("?", Join(pieces, '&'), '&');
    SetPairsCount(fs);
    SetPairsGoodKeys(fs);
    RenderAllShape(ps);
    var last := pieces[|pieces| - 1];
    assert '&' !in last;
    JoinEnds(pieces, '&');
    assert q == "?" + Join(pieces, '&');
  }

  lemma {:induction false} SetPairsGoodKeys(fs: seq<Field>)
    requires GoodKeys(fs)
    ensures forall i :: 0 <= i < |SetPairs(fs)| ==> GoodKey(SetPairs(fs)[i].0)
  {
    if fs != [] {
      SetPairsGoodKeys(fs[1..]);
    }
  }
}
