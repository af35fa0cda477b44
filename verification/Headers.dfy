/**
 Header maps of the invoke codec. A response header map is split into single-value and multi-value
 maps; a request header map is built by adding cookies, headers and multi-value headers one by one.
 Maps are walked in an arbitrary order, and keys are canonicalised when they are added.
 */
module Headers {
  type Header = map<string, seq<string>>

  /** The library's canonical form of a key, of which only idempotence matters here. */
  ghost predicate Idempotent(canon: string -> string) {
    forall k :: canon(canon(k)) == canon(k)
  }

  const COOKIE := "Cookie"

  // ---------- splitting a response header ----------

  function Singles(h: Header): map<string, string> {
    map k | k in h && |h[k]| == 1 :: h[k][0]
  }

  function Multis(h: Header): map<string, seq<string>> {
    map k | k in h && |h[k]| != 1 :: h[k]
  }

  /** A key with exactly one value is in the first map, with that value; every other is in the second, with its list. */
  ghost predicate IsSplit(h: Header, headers: map<string, string>, multi: map<string, seq<string>>) {
    && (forall k :: k in headers <==> k in h && |h[k]| == 1)
    && (forall k :: k in headers ==> h[k] == [headers[k]])
    && (forall k :: k in multi <==> k in h && |h[k]| != 1)
    && (forall k :: k in multi ==> h[k] == multi[k])
  }

  method Split(h: Header) returns (headers: map<string, string>, multi: map<string, seq<string>>)
    ensures headers == Singles(h) && multi == Multis(h)
    ensures IsSplit(h, headers, multi)
  {
    headers, multi := map[], map[];
    var left := h.Keys;
    while left != {}
      invariant left <= h.Keys
      invariant headers == map k | k in h && k !in left && |h[k]| == 1 :: h[k][0]
      invariant multi == map k | k in h && k !in left && |h[k]| != 1 :: h[k]
      decreases left
    {
      var k :| k in left;
      if |h[k]| == 1 {
        headers := headers[k := h[k][0]];
      } else {
        multi := multi[k := h[k]];
      }
      left := left - {k};
    }
  }

  // ---------- building a request header ----------

  function Lookup(h: Header, k: string): seq<string> {
    if k in h then h[k] else []
  }

  /** `Header.Add`: append a value under the canonical key. */
  function Add(canon: string -> string, h: Header, k: string, v: string): Header {
    h[canon(k) := Lookup(h, canon(k)) + [v]]
  }

  /** The additions made one after the other. */
  function AddAll(canon: string -> string, h: Header, log: seq<(string, string)>): Header {
    if log == [] then h
    else
      var last := log[|log| - 1];
      Add(canon, AddAll(canon, h, log[..|log| - 1]), last.0, last.1)
  }

  function Tagged(k: string, vs: seq<string>): seq<(string, string)> {
    seq(|vs|, i requires 0 <= i < |vs| => (k, vs[i]))
  }

  /** The additions for a map of value lists walked in the given order. */
  function MapLog(m: Header, order: seq<string>): seq<(string, string)>
    requires forall k :: k in order ==> k in m
  {
    if order == [] then []
    else MapLog(m, order[..|order| - 1]) + Tagged(order[|order| - 1], m[order[|order| - 1]])
  }

  /** A map of single values as a map of value lists. */
  function AsLists(m: map<string, string>): Header {
    map k | k in m :: [m[k]]
  }

  /** `order` visits every key of `m` exactly once. */
  ghost predicate IsOrder<V>(m: map<string, V>, order: seq<string>) {
    && (forall k :: k in order <==> k in m)
    && (forall i, j :: 0 <= i < j < |order| ==> order[i] != order[j])
  }

  /** Every addition a request makes, for one order of either map. */
  ghost function Log(cookies: seq<string>, headers: map<string, string>, ho: seq<string>,
                     multi: Header, mo: seq<string>): seq<(string, string)>
    requires IsOrder(headers, ho) && IsOrder(multi, mo)
  {
    Tagged(COOKIE, cookies) + MapLog(AsLists(headers), ho) + MapLog(multi, mo)
  }

  lemma {:induction false} AddAllConcat(canon: string -> string, h: Header, x: seq<(string, string)>, y: seq<(string, string)>)
    ensures AddAll(canon, h, x + y) == AddAll(canon, AddAll(canon, h, x), y)
  {
    if y == [] {
      assert x + y == x;
    } else {
      assert (x + y)[..|x + y| - 1] == x + y[..|y| - 1];
      AddAllConcat(canon, h, x, y[..|y| - 1]);
    }
  }

  lemma AddOne(canon: string -> string, h: Header, log: seq<(string, string)>, k: string, v: string)
    ensures AddAll(canon, h, log + [(k, v)]) == Add(canon, AddAll(canon, h, log), k, v)
  {
    assert (log + [(k, v)])[..|log|] == log;
  }

  lemma TaggedGrows(k: string, vs: seq<string>, v: string)
    ensures Tagged(k, vs + [v]) == Tagged(k, vs) + [(k, v)]
  {
  }

  // ---------- what a built header holds ----------

  /** The values added under canonical key `key`, in the order of the additions. */
  function Select(canon: string -> string, log: seq<(string, string)>, key: string): seq<string> {
    if log == [] then []
    else
      var last := log[|log| - 1];
      Select(canon, log[..|log| - 1], key) + if canon(last.0) == key then [last.1] else []
  }

  lemma {:induction false} BuiltIsSelected(canon: string -> string, log: seq<(string, string)>, key: string)
    ensures Lookup(AddAll(canon, map[], log), key) == Select(canon, log, key)
    ensures key in AddAll(canon, map[], log) <==> Select(canon, log, key) != []
  {
    if log == [] {
    } else {
      BuiltIsSelected(canon, log[..|log| - 1], key);
    }
  }

  lemma {:induction false} SelectConcat(canon: string -> string, x: seq<(string, string)>, y: seq<(string, string)>, key: string)
    ensures Select(canon, x + y, key) == Select(canon, x, key) + Select(canon, y, key)
  {
    if y == [] {
      assert x + y == x;
    } else {
      assert (x + y)[..|x + y| - 1] == x + y[..|y| - 1];
      SelectConcat(canon, x, y[..|y| - 1], key);
    }
  }

  lemma {:induction false} SelectTagged(canon: string -> string, k: string, vs: seq<string>, key: string)
    ensures Select(canon, Tagged(k, vs), key) == if canon(k) == key then vs else []
  {
    if vs == [] {
    } else {
      SelectTagged(canon, k, vs[..|vs| - 1], key);
      assert Tagged(k, vs)[..|vs| - 1] == Tagged(k, vs[..|vs| - 1]);
      assert vs == vs[..|vs| - 1] + [vs[|vs| - 1]];
    }
  }

  /** No two keys of the map share a canonical form. */
  ghost predicate DistinctKeys<V>(canon: string -> string, m: map<string, V>) {
    forall j, k :: j in m && k in m && canon(j) == canon(k) ==> j == k
  }

  /** The values a map contributes under a canonical key, if its canonical keys are distinct. */
  ghost function Part(canon: string -> string, m: Header, key: string): seq<string> {
    if k :| k in m && canon(k) == key then m[k] else []
  }

  lemma {:induction false} SelectNone(canon: string -> string, m: Header, order: seq<string>, key: string)
    requires forall k :: k in order ==> k in m && canon(k) != key
    ensures Select(canon, MapLog(m, order), key) == []
  {
    if order == [] {
    } else {
      var n := |order| - 1;
      SelectNone(canon, m, order[..n], key);
      SelectConcat(canon, MapLog(m, order[..n]), Tagged(order[n], m[order[n]]), key);
      SelectTagged(canon, order[n], m[order[n]], key);
    }
  }

  /** With distinct canonical keys, a map contributes the same under each key in every order. */
  lemma {:induction false} SelectMap(canon: string -> string, m: Header, order: seq<string>, k: string)
    requires (forall x :: x in order ==> x in m) && DistinctKeys(canon, m) && k in order
    requires forall i, j :: 0 <= i < j < |order| ==> order[i] != order[j]
    ensures Select(canon, MapLog(m, order), canon(k)) == m[k]
  {
    var n := |order| - 1;
    assert MapLog(m, order) == MapLog(m, order[..n]) + Tagged(order[n], m[order[n]]);
    hide Select, MapLog, Tagged;
    SelectConcat(canon, MapLog(m, order[..n]), Tagged(order[n], m[order[n]]), canon(k));
    SelectTagged(canon, order[n], m[order[n]], canon(k));
    if k == order[n] {
      SelectNone(canon, m, order[..n], canon(k));
    } else {
      SelectMap(canon, m, order[..n], k);
    }
  }

  lemma SelectIsPart(canon: string -> string, m: Header, order: seq<string>, key: string)
    requires IsOrder(m, order) && DistinctKeys(canon, m)
    ensures Select(canon, MapLog(m, order), key) == Part(canon, m, key)
  {
    if k :| k in m && canon(k) == key {
      SelectMap(canon, m, order, k);
    } else {
      SelectNone(canon, m, order, key);
    }
  }

  /**
   The built header, whatever the iteration order: with distinct canonical keys within either map,
   each canonical key holds the cookies (under the cookie key), then the header value, then the
   multi-value header values, and keys without values are absent.
   */
  lemma BuiltContents(canon: string -> string, cookies: seq<string>, headers: map<string, string>, ho: seq<string>,
                      multi: Header, mo: seq<string>, key: string)
    requires IsOrder(headers, ho) && IsOrder(multi, mo)
    requires DistinctKeys(canon, headers) && DistinctKeys(canon, multi)
    ensures var r := AddAll(canon, map[], Log(cookies, headers, ho, multi, mo));
            var vs := (if canon(COOKIE) == key then cookies else [])
                      + Part(canon, AsLists(headers), key) + Part(canon, multi, key);
            Lookup(r, key) == vs && (key in r <==> vs != [])
  {
    BuiltIsSelected(canon, Log(cookies, headers, ho, multi, mo), key);
    SelectConcat(canon, Tagged(COOKIE, cookies) + MapLog(AsLists(headers), ho), MapLog(multi, mo), key);
    SelectConcat(canon, Tagged(COOKIE, cookies), MapLog(AsLists(headers), ho), key);
    SelectTagged(canon, COOKIE, cookies, key);
    SelectIsPart(canon, AsLists(headers), ho, key);
    SelectIsPart(canon, multi, mo, key);
  }

  lemma SameLookups(g: Header, h: Header)
    requires forall key :: Lookup(g, key) == Lookup(h, key) && (key in g <==> key in h)
    ensures g == h
  {
    assert g.Keys == h.Keys;
    assert forall key :: key in g ==> g[key] == Lookup(g, key) == Lookup(h, key);
  }

  // ---------- when the iteration order matters ----------

  /** What key `k` adds under canonical key `key`. */
  function Values(canon: string -> string, m: Header, k: string, key: string): seq<string>
    requires k in m
  {
    if canon(k) == key then m[k] else []
  }

  /** What a walk of the map adds under canonical key `key`. */
  function Gather(canon: string -> string, m: Header, order: seq<string>, key: string): seq<string>
    requires forall k :: k in order ==> k in m
  {
    if order == [] then []
    else Gather(canon, m, order[..|order| - 1], key) + Values(canon, m, order[|order| - 1], key)
  }

  lemma {:induction false} SelectIsGather(canon: string -> string, m: Header, order: seq<string>, key: string)
    requires forall k :: k in order ==> k in m
    ensures Select(canon, MapLog(m, order), key) == Gather(canon, m, order, key)
  {
    if order == [] {
    } else {
      var n := |order| - 1;
      SelectIsGather(canon, m, order[..n], key);
      SelectConcat(canon, MapLog(m, order[..n]), Tagged(order[n], m[order[n]]), key);
      SelectTagged(canon, order[n], m[order[n]], key);
      hide Select, Tagged;
    }
  }

  lemma Associative(u: seq<string>, v: seq<string>, w: seq<string>)
    ensures u + (v + w) == (u + v) + w
  {
  }

  lemma {:induction false} GatherConcat(canon: string -> string, m: Header, x: seq<string>, y: seq<string>, key: string)
    requires (forall k :: k in x ==> k in m) && (forall k :: k in y ==> k in m)
    ensures Gather(canon, m, x + y, key) == Gather(canon, m, x, key) + Gather(canon, m, y, key)
  {
    hide Values;
    if y == [] {
      assert x + y == x;
    } else {
      var n := |y| - 1;
      assert (x + y)[..|x + y| - 1] == x + y[..n] && (x + y)[|x + y| - 1] == y[n];
      GatherConcat(canon, m, x, y[..n], key);
      Associative(Gather(canon, m, x, key), Gather(canon, m, y[..n], key), Values(canon, m, y[n], key));
    }
  }

  lemma GatherOne(canon: string -> string, m: Header, k: string, key: string)
    requires k in m
    ensures Gather(canon, m, [k], key) == Values(canon, m, k, key)
  {
    assert [k][..0] == [];
  }

  /** The value lists of keys that collide can be swapped. */
  ghost predicate Commuting(canon: string -> string, m: Header) {
    forall j, k :: j in m && k in m && canon(j) == canon(k) ==> m[j] + m[k] == m[k] + m[j]
  }

  lemma ValuesCommute(canon: string -> string, m: Header, j: string, k: string, key: string)
    requires Commuting(canon, m) && j in m && k in m
    ensures Values(canon, m, j, key) + Values(canon, m, k, key) == Values(canon, m, k, key) + Values(canon, m, j, key)
  {
  }

  lemma Exchange(u: seq<string>, v: seq<string>, w: seq<string>)
    requires u + v == v + u && u + w == w + u
    ensures u + (v + w) == (v + w) + u
  {
    assert u + (v + w) == (u + v) + w;
    assert (v + u) + w == v + (u + w);
  }

  /** A key can be moved past any part of a walk. */
  lemma {:induction false} GatherCommutes(canon: string -> string, m: Header, k: string, order: seq<string>, key: string)
    requires Commuting(canon, m) && k in m && forall x :: x in order ==> x in m
    ensures Values(canon, m, k, key) + Gather(canon, m, order, key)
            == Gather(canon, m, order, key) + Values(canon, m, k, key)
  {
    hide Values, Commuting;
    if order == [] {
    } else {
      var n := |order| - 1;
      GatherCommutes(canon, m, k, order[..n], key);
      ValuesCommute(canon, m, k, order[n], key);
      Exchange(Values(canon, m, k, key), Gather(canon, m, order[..n], key), Values(canon, m, order[n], key));
    }
  }

  lemma SwapLast(u: seq<string>, v: seq<string>, w: seq<string>)
    requires v + w == w + v
    ensures (u + v) + w == (u + w) + v
  {
    Associative(u, v, w);
    Associative(u, w, v);
  }

  /** The walk that leaves out position `i` and takes it last. */
  lemma MovedLast(canon: string -> string, m: Header, order: seq<string>, i: nat, key: string)
    requires Commuting(canon, m) && i < |order| && forall x :: x in order ==> x in m
    ensures forall x :: x in order[..i] + order[i + 1..] ==> x in m
    ensures Gather(canon, m, order, key)
            == Gather(canon, m, order[..i] + order[i + 1..], key) + Values(canon, m, order[i], key)
  {
    hide Values, Commuting, Gather;
    var x, k, y := order[..i], order[i], order[i + 1..];
    assert order == (x + [k]) + y;
    GatherConcat(canon, m, x + [k], y, key);
    GatherConcat(canon, m, x, [k], key);
    GatherConcat(canon, m, x, y, key);
    GatherOne(canon, m, k, key);
    GatherCommutes(canon, m, k, y, key);
    SwapLast(Gather(canon, m, x, key), Values(canon, m, k, key), Gather(canon, m, y, key));
  }

  lemma RestIsRearranged(order: seq<string>, i: nat, other: seq<string>)
    requires i < |order| && other != [] && order[i] == other[|other| - 1] && multiset(order) == multiset(other)
    ensures multiset(order[..i] + order[i + 1..]) == multiset(other[..|other| - 1])
  {
    assert order == order[..i] + [order[i]] + order[i + 1..];
    assert other == other[..|other| - 1] + [order[i]];
    assert multiset(order[..i] + order[i + 1..]) == multiset(order) - multiset{order[i]};
    assert multiset(other[..|other| - 1]) == multiset(other) - multiset{order[i]};
  }

  lemma {:induction false} GatherRearranged(canon: string -> string, m: Header, order: seq<string>, other: seq<string>,
                                            key: string)
    requires Commuting(canon, m) && multiset(order) == multiset(other)
    requires (forall x :: x in order ==> x in m) && (forall x :: x in other ==> x in m)
    ensures Gather(canon, m, order, key) == Gather(canon, m, other, key)
    decreases |other|
  {
    if other == [] {
      assert |order| == |multiset(order)| == 0;
    } else {
      var n := |other| - 1;
      assert other[n] in multiset(order);
      var i :| 0 <= i < |order| && order[i] == other[n];
      MovedLast(canon, m, order, i, key);
      RestIsRearranged(order, i, other);
      GatherRearranged(canon, m, order[..i] + order[i + 1..], other[..n], key);
    }
  }

  lemma {:induction false} OnceEach(order: seq<string>, k: string)
    requires forall i, j :: 0 <= i < j < |order| ==> order[i] != order[j]
    ensures multiset(order)[k] == if k in order then 1 else 0
  {
    if order == [] {
    } else {
      var n := |order| - 1;
      assert order == order[..n] + [order[n]];
      OnceEach(order[..n], k);
    }
  }

  lemma OrdersAreRearranged<V>(m: map<string, V>, order: seq<string>, other: seq<string>)
    requires IsOrder(m, order) && IsOrder(m, other)
    ensures multiset(order) == multiset(other)
  {
    forall k
      ensures multiset(order)[k] == multiset(other)[k]
    {
      OnceEach(order, k);
      OnceEach(other, k);
    }
  }

  /** The built header, key by key: the cookies, then what the walks of the two maps add. */
  lemma BuiltGathers(canon: string -> string, cookies: seq<string>, headers: map<string, string>, ho: seq<string>,
                     multi: Header, mo: seq<string>, key: string)
    requires IsOrder(headers, ho) && IsOrder(multi, mo)
    ensures var r := AddAll(canon, map[], Log(cookies, headers, ho, multi, mo));
            var vs := (if canon(COOKIE) == key then cookies else [])
                      + Gather(canon, AsLists(headers), ho, key) + Gather(canon, multi, mo, key);
            Lookup(r, key) == vs && (key in r <==> vs != [])
  {
    BuiltIsSelected(canon, Log(cookies, headers, ho, multi, mo), key);
    SelectConcat(canon, Tagged(COOKIE, cookies) + MapLog(AsLists(headers), ho), MapLog(multi, mo), key);
    SelectConcat(canon, Tagged(COOKIE, cookies), MapLog(AsLists(headers), ho), key);
    SelectTagged(canon, COOKIE, cookies, key);
    SelectIsGather(canon, AsLists(headers), ho, key);
    SelectIsGather(canon, multi, mo, key);
    hide Select, Gather, Tagged, MapLog, AddAll;
  }

  /** Single-value headers that collide have the same value. */
  ghost predicate Agreeing(canon: string -> string, headers: map<string, string>) {
    forall j, k :: j in headers && k in headers && canon(j) == canon(k) ==> headers[j] == headers[k]
  }

  lemma AgreeingCommutes(canon: string -> string, headers: map<string, string>)
    requires Agreeing(canon, headers)
    ensures Commuting(canon, AsLists(headers))
  {
  }

  /** No two walks of the two maps build different headers. */
  ghost predicate OrderIsIrrelevant(canon: string -> string, cookies: seq<string>, headers: map<string, string>,
                                    multi: Header)
  {
    forall ho, mo, ho', mo' ::
      IsOrder(headers, ho) && IsOrder(multi, mo) && IsOrder(headers, ho') && IsOrder(multi, mo') ==>
        AddAll(canon, map[], Log(cookies, headers, ho, multi, mo))
        == AddAll(canon, map[], Log(cookies, headers, ho', multi, mo'))
  }

  lemma CommutingMapsBuildTheSame(canon: string -> string, cookies: seq<string>, headers: map<string, string>,
                                  multi: Header, ho: seq<string>, mo: seq<string>, ho': seq<string>, mo': seq<string>)
    requires IsOrder(headers, ho) && IsOrder(multi, mo) && IsOrder(headers, ho') && IsOrder(multi, mo')
    requires Commuting(canon, AsLists(headers)) && Commuting(canon, multi)
    ensures AddAll(canon, map[], Log(cookies, headers, ho, multi, mo))
            == AddAll(canon, map[], Log(cookies, headers, ho', multi, mo'))
  {
    var r := AddAll(canon, map[], Log(cookies, headers, ho, multi, mo));
    var r' := AddAll(canon, map[], Log(cookies, headers, ho', multi, mo'));
    OrdersAreRearranged(headers, ho, ho');
    OrdersAreRearranged(multi, mo, mo');
    hide AddAll, Log, Lookup, Commuting, Gather;
    forall key
      ensures Lookup(r, key) == Lookup(r', key) && (key in r <==> key in r')
    {
      BuiltGathers(canon, cookies, headers, ho, multi, mo, key);
      BuiltGathers(canon, cookies, headers, ho', multi, mo', key);
      GatherRearranged(canon, AsLists(headers), ho, ho', key);
      GatherRearranged(canon, multi, mo, mo', key);
    }
    SameLookups(r, r');
  }

  lemma {:induction false} SomeOrder<V>(m: map<string, V>) returns (order: seq<string>)
    ensures IsOrder(m, order)
    decreases m.Keys
  {
    if m == map[] {
      order := [];
    } else {
      var k :| k in m;
      var rest := SomeOrder(m - {k});
      order := rest + [k];
    }
  }

  /** Any two keys can be the first two of a walk, in either order. */
  lemma FirstTwo<V>(m: map<string, V>, j: string, k: string) returns (rest: seq<string>)
    requires j in m && k in m && j != k
    ensures IsOrder(m, [j, k] + rest) && IsOrder(m, [k, j] + rest)
  {
    rest := SomeOrder(m - {j, k});
  }

  lemma GatherTwo(canon: string -> string, m: Header, j: string, k: string, rest: seq<string>)
    requires j in m && k in m && canon(j) == canon(k) && forall x :: x in rest ==> x in m
    ensures Gather(canon, m, [j, k] + rest, canon(k)) == m[j] + m[k] + Gather(canon, m, rest, canon(k))
  {
    GatherConcat(canon, m, [j, k], rest, canon(k));
    assert [j, k][..1] == [j] && [j][..0] == [];
    assert Gather(canon, m, [j], canon(k)) == m[j];
  }

  lemma DifferentInTheMiddle(c: seq<string>, x: seq<string>, y: seq<string>, d: seq<string>)
    requires |x| == |y| && x != y
    ensures c + x + d != c + y + d
  {
    var i :| 0 <= i < |x| && x[i] != y[i];
    assert (c + x + d)[|c| + i] == x[i] && (c + y + d)[|c| + i] == y[i];
  }

  lemma Regroup(u: seq<string>, v: seq<string>, w: seq<string>, x: seq<string>)
    ensures u + (v + w) + x == u + v + (w + x)
  {
  }

  lemma WalksDiffer(canon: string -> string, m: Header, j: string, k: string, rest: seq<string>,
                    before: seq<string>, after: seq<string>)
    requires j in m && k in m && canon(j) == canon(k) && m[j] + m[k] != m[k] + m[j] && forall x :: x in rest ==> x in m
    ensures before + Gather(canon, m, [j, k] + rest, canon(k)) + after
            != before + Gather(canon, m, [k, j] + rest, canon(k)) + after
  {
    GatherTwo(canon, m, j, k, rest);
    GatherTwo(canon, m, k, j, rest);
    var g := Gather(canon, m, rest, canon(k));
    hide Gather;
    Regroup(before, m[j] + m[k], g, after);
    Regroup(before, m[k] + m[j], g, after);
    DifferentInTheMiddle(before, m[j] + m[k], m[k] + m[j], g + after);
  }

  /** Walks of the single values that swap two colliding keys with different values build different headers. */
  lemma CollisionsMakeOrderMatter(canon: string -> string, cookies: seq<string>, headers: map<string, string>, multi: Header,
                                  j: string, k: string) returns (ho: seq<string>, ho': seq<string>, mo: seq<string>)
    requires j in headers && k in headers && canon(j) == canon(k) && headers[j] != headers[k]
    ensures IsOrder(headers, ho) && IsOrder(headers, ho') && IsOrder(multi, mo)
    ensures AddAll(canon, map[], Log(cookies, headers, ho, multi, mo))
            != AddAll(canon, map[], Log(cookies, headers, ho', multi, mo))
  {
    var rest := FirstTwo(headers, j, k);
    mo := SomeOrder(multi);
    ho, ho' := [j, k] + rest, [k, j] + rest;
    var m, key := AsLists(headers), canon(k);
    assert m[j] + m[k] == [headers[j], headers[k]] && m[k] + m[j] == [headers[k], headers[j]];
    assert m[j] + m[k] != m[k] + m[j] by { assert [headers[j], headers[k]][0] != [headers[k], headers[j]][0]; }
    assert forall x :: x in rest ==> x in ho;
    hide AddAll, Log, Gather, IsOrder, AsLists;
    BuiltGathers(canon, cookies, headers, ho, multi, mo, key);
    BuiltGathers(canon, cookies, headers, ho', multi, mo, key);
    WalksDiffer(canon, m, j, k, rest, if canon(COOKIE) == key then cookies else [], Gather(canon, multi, mo, key));
    hide Lookup;
  }

  /** The same for the value lists of two colliding keys that cannot be swapped. */
  lemma MultiCollisionsMakeOrderMatter(canon: string -> string, cookies: seq<string>, headers: map<string, string>,
                                       multi: Header, j: string, k: string)
    returns (ho: seq<string>, mo: seq<string>, mo': seq<string>)
    requires j in multi && k in multi && canon(j) == canon(k) && multi[j] + multi[k] != multi[k] + multi[j]
    ensures IsOrder(headers, ho) && IsOrder(multi, mo) && IsOrder(multi, mo')
    ensures AddAll(canon, map[], Log(cookies, headers, ho, multi, mo))
            != AddAll(canon, map[], Log(cookies, headers, ho, multi, mo'))
  {
    var rest := FirstTwo(multi, j, k);
    ho := SomeOrder(headers);
    mo, mo' := [j, k] + rest, [k, j] + rest;
    var key := canon(k);
    assert forall x :: x in rest ==> x in mo;
    hide AddAll, Log, Gather, IsOrder;
    BuiltGathers(canon, cookies, headers, ho, multi, mo, key);
    BuiltGathers(canon, cookies, headers, ho, multi, mo', key);
    var before := (if canon(COOKIE) == key then cookies else []) + Gather(canon, AsLists(headers), ho, key);
    WalksDiffer(canon, multi, j, k, rest, before, []);
    hide Lookup;
  }

  /**
   When the iteration order matters, exactly: every walk of the two maps builds the same header if and only
   if single-value headers whose keys collide have the same value, and the value lists of multi-value
   headers whose keys collide can be swapped.
   */
  lemma OrderDoesNotMatter(canon: string -> string, cookies: seq<string>, headers: map<string, string>, multi: Header)
    ensures OrderIsIrrelevant(canon, cookies, headers, multi) <==> Agreeing(canon, headers) && Commuting(canon, multi)
  {
    if Agreeing(canon, headers) && Commuting(canon, multi) {
      AgreeingCommutes(canon, headers);
      hide AddAll, Log, IsOrder, Agreeing, Commuting;
      forall ho, mo, ho', mo' |
        IsOrder(headers, ho) && IsOrder(multi, mo) && IsOrder(headers, ho') && IsOrder(multi, mo')
        ensures AddAll(canon, map[], Log(cookies, headers, ho, multi, mo))
                == AddAll(canon, map[], Log(cookies, headers, ho', multi, mo'))
      {
        CommutingMapsBuildTheSame(canon, cookies, headers, multi, ho, mo, ho', mo');
      }
    } else if !Agreeing(canon, headers) {
      var j, k :| j in headers && k in headers && canon(j) == canon(k) && headers[j] != headers[k];
      hide AddAll, Log, IsOrder, Commuting;
      var ho, ho', mo := CollisionsMakeOrderMatter(canon, cookies, headers, multi, j, k);
    } else {
      var j, k :| j in multi && k in multi && canon(j) == canon(k) && multi[j] + multi[k] != multi[k] + multi[j];
      hide AddAll, Log, IsOrder, Agreeing;
      var ho, mo, mo' := MultiCollisionsMakeOrderMatter(canon, cookies, headers, multi, j, k);
    }
  }

  /** Distinct canonical keys within either map are enough. */
  lemma DistinctKeysAreEnough(canon: string -> string, cookies: seq<string>, headers: map<string, string>, multi: Header)
    requires DistinctKeys(canon, headers) && DistinctKeys(canon, multi)
    ensures OrderIsIrrelevant(canon, cookies, headers, multi)
  {
    OrderDoesNotMatter(canon, cookies, headers, multi);
    hide OrderIsIrrelevant;
  }

  // ---------- split and merge ----------

  /** The two maps of a split share no key and together have all keys, each where the number of its values puts it. */
  lemma SplitPartitions(h: Header)
    ensures IsSplit(h, Singles(h), Multis(h))
    ensures Singles(h).Keys !! Multis(h).Keys && Singles(h).Keys + Multis(h).Keys == h.Keys
  {
  }

  lemma SplitParts(canon: string -> string, h: Header, key: string)
    requires forall k :: k in h ==> canon(k) == k
    ensures Part(canon, AsLists(Singles(h)), key) + Part(canon, Multis(h), key) == Lookup(h, key)
  {
    if key in Singles(h) {
      assert [h[key][0]] == h[key];
    }
  }

  lemma {:induction false} BuiltKeysAreCanonical(canon: string -> string, log: seq<(string, string)>, key: string)
    requires Idempotent(canon) && key in AddAll(canon, map[], log)
    ensures canon(key) == key && AddAll(canon, map[], log)[key] != []
  {
    if key in AddAll(canon, map[], log[..|log| - 1]) {
      BuiltKeysAreCanonical(canon, log[..|log| - 1], key);
    }
  }

  lemma SplitMergeAt(canon: string -> string, h: Header, ho: seq<string>, mo: seq<string>, key: string)
    requires IsOrder(Singles(h), ho) && IsOrder(Multis(h), mo)
    requires forall k :: k in h ==> canon(k) == k && h[k] != []
    ensures var r := AddAll(canon, map[], Log([], Singles(h), ho, Multis(h), mo));
            Lookup(r, key) == Lookup(h, key) && (key in r <==> key in h)
  {
    assert DistinctKeys(canon, Singles(h)) && DistinctKeys(canon, Multis(h));
    hide AddAll, Log, IsOrder, DistinctKeys, Part, Singles, Multis;
    BuiltContents(canon, [], Singles(h), ho, Multis(h), mo, key);
    SplitParts(canon, h, key);
  }

  lemma SplitMergeRestores(canon: string -> string, h: Header, ho: seq<string>, mo: seq<string>)
    requires IsOrder(Singles(h), ho) && IsOrder(Multis(h), mo)
    requires forall k :: k in h ==> canon(k) == k && h[k] != []
    ensures AddAll(canon, map[], Log([], Singles(h), ho, Multis(h), mo)) == h
  {
    hide *;
    var r := AddAll(canon, map[], Log([], Singles(h), ho, Multis(h), mo));
    forall key
      ensures Lookup(r, key) == Lookup(h, key) && (key in r <==> key in h)
    {
      SplitMergeAt(canon, h, ho, mo, key);
    }
    SameLookups(r, h);
  }

  /**
   Split and merge: whatever the iteration orders, building a header from the two maps of a split gives
   back the original, value order included, if and only if its keys are canonical and none is without values.
   */
  lemma SplitMergeRoundTrip(canon: string -> string, h: Header, ho: seq<string>, mo: seq<string>)
    requires Idempotent(canon) && IsOrder(Singles(h), ho) && IsOrder(Multis(h), mo)
    ensures AddAll(canon, map[], Log([], Singles(h), ho, Multis(h), mo)) == h
            <==> forall k :: k in h ==> canon(k) == k && h[k] != []
  {
    var log := Log([], Singles(h), ho, Multis(h), mo);
    hide *;
    if forall k :: k in h ==> canon(k) == k && h[k] != [] {
      SplitMergeRestores(canon, h, ho, mo);
    } else if AddAll(canon, map[], log) == h {
      var k :| k in h && (canon(k) != k || h[k] == []);
      BuiltKeysAreCanonical(canon, log, k);
    }
  }

  // ---------- conservation ----------

  /** All (key, value) pairs of a map of value lists, with the keys translated. */
  ghost function Pairs(canon: string -> string, m: Header): multiset<(string, string)>
    decreases m.Keys
  {
    if m == map[] then multiset{}
    else
      var k :| k in m;
      multiset(Tagged(canon(k), m[k])) + Pairs(canon, m - {k})
  }

  lemma PairsUnfold(canon: string -> string, m: Header) returns (j: string)
    requires m != map[]
    ensures j in m && Pairs(canon, m) == multiset(Tagged(canon(j), m[j])) + Pairs(canon, m - {j})
  {
    j :| j in m && Pairs(canon, m) == multiset(Tagged(canon(j), m[j])) + Pairs(canon, m - {j});
  }

  /** The pairs of a map can be counted starting at any key. */
  lemma {:induction false} PairsPick(canon: string -> string, m: Header, k: string)
    requires k in m
    ensures Pairs(canon, m) == multiset(Tagged(canon(k), m[k])) + Pairs(canon, m - {k})
    decreases m.Keys
  {
    hide Pairs, Tagged;
    var j := PairsUnfold(canon, m);
    if j == k {
    } else {
      PairsPick(canon, m - {j}, k);
      PairsPick(canon, m - {k}, j);
      assert m - {j} - {k} == m - {k} - {j};
    }
  }

  /** The pairs of a sequence of additions, with the keys translated. */
  function Image(canon: string -> string, log: seq<(string, string)>): multiset<(string, string)> {
    if log == [] then multiset{}
    else
      var last := log[|log| - 1];
      Image(canon, log[..|log| - 1]) + multiset{(canon(last.0), last.1)}
  }

  lemma {:induction false} ImageConcat(canon: string -> string, x: seq<(string, string)>, y: seq<(string, string)>)
    ensures Image(canon, x + y) == Image(canon, x) + Image(canon, y)
  {
    if y == [] {
      assert x + y == x;
    } else {
      assert (x + y)[..|x + y| - 1] == x + y[..|y| - 1];
      ImageConcat(canon, x, y[..|y| - 1]);
    }
  }

  lemma {:induction false} ImageTagged(canon: string -> string, k: string, vs: seq<string>)
    ensures Image(canon, Tagged(k, vs)) == multiset(Tagged(canon(k), vs))
  {
    if vs == [] {
    } else {
      var n := |vs| - 1;
      ImageTagged(canon, k, vs[..n]);
      assert Tagged(k, vs)[..n] == Tagged(k, vs[..n]);
      assert Tagged(canon(k), vs) == Tagged(canon(k), vs[..n]) + [(canon(k), vs[n])];
    }
  }

  lemma {:induction false} WalkOfSubmap(m: Header, sub: Header, order: seq<string>)
    requires forall k :: k in order ==> k in m && k in sub && m[k] == sub[k]
    ensures MapLog(m, order) == MapLog(sub, order)
  {
    if order == [] {
    } else {
      WalkOfSubmap(m, sub, order[..|order| - 1]);
    }
  }

  /** In every order, walking a map adds exactly its pairs. */
  lemma {:induction false} ImageOfWalk(canon: string -> string, m: Header, order: seq<string>)
    requires IsOrder(m, order)
    ensures Image(canon, MapLog(m, order)) == Pairs(canon, m)
    decreases |order|
  {
    if order == [] {
      assert m == map[];
    } else {
      var n := |order| - 1;
      var k := order[n];
      var rest := m - {k};
      assert IsOrder(rest, order[..n]);
      ImageOfWalk(canon, rest, order[..n]);
      WalkOfSubmap(m, rest, order[..n]);
      ImageConcat(canon, MapLog(m, order[..n]), Tagged(k, m[k]));
      ImageTagged(canon, k, m[k]);
      PairsPick(canon, m, k);
    }
  }

  function Same(k: string): string {
    k
  }

  lemma AddPairs(h: Header, key: string, v: string)
    ensures Pairs(Same, h[key := Lookup(h, key) + [v]]) == Pairs(Same, h) + multiset{(key, v)}
  {
    hide Pairs;
    var after := h[key := Lookup(h, key) + [v]];
    PairsPick(Same, after, key);
    assert after - {key} == h - {key};
    TaggedGrows(key, Lookup(h, key), v);
    if key in h {
      PairsPick(Same, h, key);
    } else {
      assert h - {key} == h && Tagged(key, []) == [];
    }
    hide Tagged, Lookup;
  }

  /** Every addition adds its pair to the header and changes no other. */
  lemma {:induction false} BuiltPairs(canon: string -> string, log: seq<(string, string)>)
    ensures Pairs(Same, AddAll(canon, map[], log)) == Image(canon, log)
  {
    if log == [] {
    } else {
      var n := |log| - 1;
      hide Pairs;
      BuiltPairs(canon, log[..n]);
      AddPairs(AddAll(canon, map[], log[..n]), canon(log[n].0), log[n].1);
    }
  }

  /**
   Header conservation: for arbitrary keys, colliding ones included, and every iteration order, the
   built header holds exactly the (canonical key, value) pairs of cookies, headers and multi-value headers.
   */
  lemma HeaderConservation(canon: string -> string, cookies: seq<string>, headers: map<string, string>, ho: seq<string>,
                           multi: Header, mo: seq<string>)
    requires IsOrder(headers, ho) && IsOrder(multi, mo)
    ensures Pairs(Same, AddAll(canon, map[], Log(cookies, headers, ho, multi, mo)))
            == multiset(Tagged(canon(COOKIE), cookies)) + Pairs(canon, AsLists(headers)) + Pairs(canon, multi)
  {
    BuiltPairs(canon, Log(cookies, headers, ho, multi, mo));
    ImageConcat(canon, Tagged(COOKIE, cookies) + MapLog(AsLists(headers), ho), MapLog(multi, mo));
    ImageConcat(canon, Tagged(COOKIE, cookies), MapLog(AsLists(headers), ho));
    ImageTagged(canon, COOKIE, cookies);
    ImageOfWalk(canon, AsLists(headers), ho);
    ImageOfWalk(canon, multi, mo);
  }

  // ---------- the loops ----------

  /** `Build`, one loop at a time: the additions of one list under one key. */
  method AddList(canon: string -> string, h: Header, k: string, vs: seq<string>) returns (r: Header)
    ensures r == AddAll(canon, h, Tagged(k, vs))
  {
    r := h;
    for i := 0 to |vs|
      invariant r == AddAll(canon, h, Tagged(k, vs[..i]))
    {
      assert vs[..i + 1] == vs[..i] + [vs[i]];
      TaggedGrows(k, vs[..i], vs[i]);
      AddOne(canon, h, Tagged(k, vs[..i]), k, vs[i]);
      r := Add(canon, r, k, vs[i]);
    }
    assert vs[..|vs|] == vs;
  }

  lemma MapLogGrows(m: Header, order: seq<string>, k: string)
    requires (forall x :: x in order ==> x in m) && k in m
    ensures MapLog(m, order + [k]) == MapLog(m, order) + Tagged(k, m[k])
  {
    assert (order + [k])[..|order|] == order;
  }

  /** The walk of one map of value lists, in an arbitrary order. */
  method AddMap(canon: string -> string, h: Header, m: Header) returns (r: Header, ghost order: seq<string>)
    ensures IsOrder(m, order)
    ensures r == AddAll(canon, h, MapLog(m, order))
  {
    r, order := h, [];
    var left := m.Keys;
    while left != {}
      invariant left <= m.Keys
      invariant forall k :: k in order <==> k in m && k !in left
      invariant forall i, j :: 0 <= i < j < |order| ==> order[i] != order[j]
      invariant r == AddAll(canon, h, MapLog(m, order))
      decreases left
    {
      var k :| k in left;
      MapLogGrows(m, order, k);
      AddAllConcat(canon, h, MapLog(m, order), Tagged(k, m[k]));
      r := AddList(canon, r, k, m[k]);
      order := order + [k];
      left := left - {k};
    }
  }

  /** The walk of the single-value map, in an arbitrary order. */
  method AddSingles(canon: string -> string, h: Header, m: map<string, string>)
    returns (r: Header, ghost order: seq<string>)
    ensures IsOrder(m, order)
    ensures r == AddAll(canon, h, MapLog(AsLists(m), order))
  {
    r, order := h, [];
    var left := m.Keys;
    while left != {}
      invariant left <= m.Keys
      invariant forall k :: k in order <==> k in m && k !in left
      invariant forall i, j :: 0 <= i < j < |order| ==> order[i] != order[j]
      invariant r == AddAll(canon, h, MapLog(AsLists(m), order))
      decreases left
    {
      var k :| k in left;
      MapLogGrows(AsLists(m), order, k);
      assert Tagged(k, [m[k]]) == [(k, m[k])];
      AddOne(canon, h, MapLog(AsLists(m), order), k, m[k]);
      r := Add(canon, r, k, m[k]);
      order := order + [k];
      left := left - {k};
    }
  }

  lemma LogIs(cookies: seq<string>, headers: map<string, string>, ho: seq<string>, multi: Header, mo: seq<string>)
    requires IsOrder(headers, ho) && IsOrder(multi, mo)
    ensures Log(cookies, headers, ho, multi, mo)
            == Tagged(COOKIE, cookies) + MapLog(AsLists(headers), ho) + MapLog(multi, mo)
  {
  }

  /** The header of a request; the ghost results are the orders in which the maps happened to be walked. */
  method Build(canon: string -> string, cookies: seq<string>, headers: map<string, string>, multi: Header)
    returns (r: Header, ghost ho: seq<string>, ghost mo: seq<string>)
    ensures IsOrder(headers, ho) && IsOrder(multi, mo)
    ensures r == AddAll(canon, map[], Log(cookies, headers, ho, multi, mo))
    ensures Pairs(Same, r)
            == multiset(Tagged(canon(COOKIE), cookies)) + Pairs(canon, AsLists(headers)) + Pairs(canon, multi)
  {
    hide AddAll, MapLog, Tagged, Pairs, Log;
    r := AddList(canon, map[], COOKIE, cookies);
    r, ho := AddSingles(canon, r, headers);
    AddAllConcat(canon, map[], Tagged(COOKIE, cookies), MapLog(AsLists(headers), ho));
    r, mo := AddMap(canon, r, multi);
    AddAllConcat(canon, map[], Tagged(COOKIE, cookies) + MapLog(AsLists(headers), ho), MapLog(multi, mo));
    LogIs(cookies, headers, ho, multi, mo);
    HeaderConservation(canon, cookies, headers, ho, multi, mo);
  }
}
