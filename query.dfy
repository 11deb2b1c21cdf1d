/**
 * utils.go: buildQueryString and the pointer helpers.
 *
 * buildQueryString fills a url.Values map and renders it with
 * url.Values.Encode, which writes the keys in sorted order, each value as
 * escape(key) + "=" + escape(value), joined by "&". The percent-encoding
 * (url.QueryEscape) is library behaviour and is a parameter here.
 */
module Query {
  import opened Wrappers
  import opened Options
  import Decimal

  // ---------------------------------------------------------------------
  // Byte-wise string order, as Go compares strings

  /** `a` sorts strictly before `b`. Go compares the UTF-8 bytes; on code
    * points, as here, that order is the same. */
  predicate Before(a: string, b: string) {
    if a == [] then b != []
    else b != [] && (a[0] < b[0] || (a[0] == b[0] && Before(a[1..], b[1..])))
  }

  lemma {:induction false} BeforeIrreflexive(a: string)
    ensures !Before(a, a)
  {
    if a != [] {
      BeforeIrreflexive(a[1..]);
    }
  }

  lemma {:induction false} BeforeTransitive(a: string, b: string, c: string)
    requires Before(a, b) && Before(b, c)
    ensures Before(a, c)
  {
    if a != [] && a[0] == b[0] && b[0] == c[0] {
      BeforeTransitive(a[1..], b[1..], c[1..]);
    }
  }

  lemma {:induction false} BeforeTotal(a: string, b: string)
    requires a != b
    ensures Before(a, b) || Before(b, a)
  {
    if a != [] && b != [] && a[0] == b[0] {
      assert a == [a[0]] + a[1..] && b == [b[0]] + b[1..];
      BeforeTotal(a[1..], b[1..]);
    }
  }

  lemma BeforeAsymmetric(a: string, b: string)
    requires Before(a, b)
    ensures !Before(b, a)
  {
    if Before(b, a) {
      BeforeTransitive(a, b, a);
      BeforeIrreflexive(a);
    }
  }

  predicate StrictlySorted(s: seq<string>) {
    forall i, j :: 0 <= i < j < |s| ==> Before(s[i], s[j])
  }

  function Elems(s: seq<string>): set<string> {
    set x | x in s
  }

  lemma ElemsEmpty(s: seq<string>)
    ensures Elems(s) == {} <==> s == []
  {
    if s != [] {
      assert s[0] in Elems(s);
    }
  }

  lemma ElemsCons(s: seq<string>)
    requires s != []
    ensures Elems(s) == {s[0]} + Elems(s[1..])
  {
    assert s == [s[0]] + s[1..];
  }

  /** Inserts `k` into a sorted sequence, keeping it sorted and duplicate-free. */
  function Insert(k: string, s: seq<string>): seq<string> {
    if s == [] then [k]
    else if k == s[0] then s
    else if Before(k, s[0]) then [k] + s
    else [s[0]] + Insert(k, s[1..])
  }

  lemma {:induction false} InsertElems(k: string, s: seq<string>)
    ensures Elems(Insert(k, s)) == Elems(s) + {k}
  {
    if s != [] {
      ElemsCons(s);
      if k != s[0] && !Before(k, s[0]) {
        InsertElems(k, s[1..]);
        ElemsCons(Insert(k, s));
      }
    }
  }

  /** The head of a strictly sorted sequence sorts before everything in its tail. */
  lemma HeadFirst(s: seq<string>, x: string)
    requires StrictlySorted(s) && s != [] && x in Elems(s[1..])
    ensures Before(s[0], x)
  {
    var m :| 0 <= m < |s[1..]| && s[1..][m] == x;
    assert s[m + 1] == x;
  }

  lemma ConsSorted(x: string, t: seq<string>)
    requires StrictlySorted(t)
    requires forall y :: y in Elems(t) ==> Before(x, y)
    ensures StrictlySorted([x] + t)
  {
    var r := [x] + t;
    forall i, j | 0 <= i < j < |r| ensures Before(r[i], r[j]) {
      if i == 0 {
        assert r[j] == t[j - 1] && t[j - 1] in Elems(t);
      } else {
        assert r[i] == t[i - 1] && r[j] == t[j - 1];
      }
    }
  }

  lemma {:induction false} InsertSorted(k: string, s: seq<string>)
    requires StrictlySorted(s)
    ensures StrictlySorted(Insert(k, s))
  {
    if s == [] {
    } else if k == s[0] {
    } else if Before(k, s[0]) {
      forall y | y in Elems(s) ensures Before(k, y) {
        ElemsCons(s);
        if y != s[0] {
          HeadFirst(s, y);
          BeforeTransitive(k, s[0], y);
        }
      }
      ConsSorted(k, s);
    } else {
      BeforeTotal(k, s[0]);
      assert StrictlySorted(s[1..]);
      InsertSorted(k, s[1..]);
      InsertElems(k, s[1..]);
      forall y | y in Elems(Insert(k, s[1..])) ensures Before(s[0], y) {
        if y != k {
          HeadFirst(s, y);
        }
      }
      ConsSorted(s[0], Insert(k, s[1..]));
    }
  }

  /** A set has only one strictly sorted enumeration. */
  lemma {:induction false} SortedUnique(a: seq<string>, b: seq<string>)
    requires StrictlySorted(a) && StrictlySorted(b)
    requires Elems(a) == Elems(b)
    ensures a == b
    decreases |a|
  {
    ElemsEmpty(a);
    ElemsEmpty(b);
    if a != [] && b != [] {
      ElemsCons(a);
      ElemsCons(b);
      // a[0] and b[0] are both the least element
      if a[0] != b[0] {
        HeadFirst(a, b[0]);
        HeadFirst(b, a[0]);
        BeforeAsymmetric(a[0], b[0]);
      }
      forall x | x in Elems(a[1..]) ensures x in Elems(b[1..]) {
        HeadFirst(a, x);
        if x == a[0] {
          BeforeIrreflexive(x);
        }
      }
      forall x | x in Elems(b[1..]) ensures x in Elems(a[1..]) {
        HeadFirst(b, x);
        if x == b[0] {
          BeforeIrreflexive(x);
        }
      }
      SortedUnique(a[1..], b[1..]);
      assert a == [a[0]] + a[1..] && b == [b[0]] + b[1..];
    }
  }

  // ---------------------------------------------------------------------
  // url.Values and its encoding

  /** url.Values: each key holds a list of values. */
  type Values = map<string, seq<string>>

  /** url.Values.Add appends a value to the key's list. */
  function Add(v: Values, key: string, value: string): Values {
    v[key := (if key in v then v[key] else []) + [value]]
  }

  function Pair(key: string, value: string, escape: string -> string): string {
    escape(key) + "=" + escape(value)
  }

  /** The key=value pieces for one key, one per value. */
  function KeyPieces(key: string, values: seq<string>, escape: string -> string): seq<string> {
    if values == [] then [] else [Pair(key, values[0], escape)] + KeyPieces(key, values[1..], escape)
  }

  /** The pieces for the keys of `v`, in the order given. */
  function Pieces(keys: seq<string>, v: Values, escape: string -> string): seq<string>
    requires Elems(keys) <= v.Keys
  {
    if keys == [] then []
    else
      assert keys[0] in Elems(keys);
      KeyPieces(keys[0], v[keys[0]], escape) + Pieces(keys[1..], v, escape)
  }

  /** Pieces joined by "&". Every piece holds "=", so this is what Encode's
    * "an & before each piece but the first" writes. */
  function Join(pieces: seq<string>): string {
    if pieces == [] then ""
    else if |pieces| == 1 then pieces[0]
    else pieces[0] + "&" + Join(pieces[1..])
  }

  /** The members of `ks` in increasing order: the one strictly sorted
    * enumeration of the set (SortedUnique). */
  ghost function Ascending(ks: set<string>): (r: seq<string>)
    ensures StrictlySorted(r) && Elems(r) == ks
    decreases ks
  {
    if ks == {} then []
    else
      var k :| k in ks;
      var rest := Ascending(ks - {k});
      InsertSorted(k, rest);
      InsertElems(k, rest);
      Insert(k, rest)
  }

  /** The keys of `v`, sorted (Encode's slices.Sort of the collected keys). */
  method SortedKeys(v: Values) returns (keys: seq<string>)
    ensures keys == Ascending(v.Keys)
  {
    keys := [];
    var pending := v.Keys;
    while pending != {}
      invariant StrictlySorted(keys)
      invariant Elems(keys) + pending == v.Keys
      decreases pending
    {
      var k :| k in pending;
      InsertSorted(k, keys);
      InsertElems(k, keys);
      keys := Insert(k, keys);
      pending := pending - {k};
    }
    SortedUnique(keys, Ascending(v.Keys));
  }

  /** url.Values.Encode: the pieces of every key, keys in increasing order. */
  method Encode(v: Values, escape: string -> string) returns (s: string)
    ensures s == Join(Pieces(Ascending(v.Keys), v, escape))
  {
    var keys := SortedKeys(v);
    s := Join(Pieces(keys, v, escape));
  }

  // ---------------------------------------------------------------------
  // buildQueryString

  /** The parameter names buildQueryString can emit, in sorted order. */
  const ListKeys: seq<string> := ["limit", "marker", "sort_dir", "sort_key"]

  lemma ListKeysSorted()
    ensures StrictlySorted(ListKeys)
  {
    assert Before("limit", "marker");
    assert Before("marker", "sort_dir");
    assert Before("sort_dir", "sort_key");
    BeforeTransitive("limit", "marker", "sort_dir");
    BeforeTransitive("limit", "sort_dir", "sort_key");
    BeforeTransitive("marker", "sort_dir", "sort_key");
  }

  /** Does buildQueryString emit parameter `key` for `o`? */
  predicate Present(o: ListOptions, key: string) {
    match key
    case "limit" => o.limit > 0
    case "marker" => o.marker != ""
    case "sort_dir" => o.sortDir != ""
    case "sort_key" => o.sortKey != ""
    case _ => false
  }

  /** The value emitted for `key`; the limit in decimal. */
  function ParamValue(o: ListOptions, key: string): string {
    match key
    case "limit" => Decimal.FromInt(o.limit)
    case "marker" => o.marker
    case "sort_dir" => o.sortDir
    case "sort_key" => o.sortKey
    case _ => ""
  }

  /** The present keys of `keys`, in their order. */
  function PresentKeys(o: ListOptions, keys: seq<string>): seq<string> {
    if keys == [] then []
    else (if Present(o, keys[0]) then [keys[0]] else []) + PresentKeys(o, keys[1..])
  }

  /** Each key paired with its value. */
  function Pairs(o: ListOptions, keys: seq<string>): seq<(string, string)> {
    if keys == [] then [] else [(keys[0], ParamValue(o, keys[0]))] + Pairs(o, keys[1..])
  }

  /** The parameters of `o`, as (key, value) pairs in sorted key order. */
  function QueryParams(o: ListOptions): seq<(string, string)> {
    Pairs(o, PresentKeys(o, ListKeys))
  }

  function PairPieces(ps: seq<(string, string)>, escape: string -> string): seq<string> {
    if ps == [] then [] else [Pair(ps[0].0, ps[0].1, escape)] + PairPieces(ps[1..], escape)
  }

  /** What buildQueryString returns: "" for nil options or no parameters,
    * otherwise "?" and the encoded parameters in sorted key order. */
  function QueryString(opts: Option<ListOptions>, escape: string -> string): string {
    if opts.None? || QueryParams(opts.value) == [] then ""
    else "?" + Join(PairPieces(QueryParams(opts.value), escape))
  }

  lemma {:induction false} PresentKeysElems(o: ListOptions, keys: seq<string>)
    ensures forall k :: k in PresentKeys(o, keys) <==> k in keys && Present(o, k)
  {
    if keys != [] {
      PresentKeysElems(o, keys[1..]);
      assert keys == [keys[0]] + keys[1..];
    }
  }

  lemma {:induction false} PresentKeysSorted(o: ListOptions, keys: seq<string>)
    requires StrictlySorted(keys)
    ensures StrictlySorted(PresentKeys(o, keys))
  {
    if keys != [] {
      assert StrictlySorted(keys[1..]);
      PresentKeysSorted(o, keys[1..]);
      if Present(o, keys[0]) {
        PresentKeysElems(o, keys[1..]);
        forall y | y in Elems(PresentKeys(o, keys[1..])) ensures Before(keys[0], y) {
          HeadFirst(keys, y);
        }
        ConsSorted(keys[0], PresentKeys(o, keys[1..]));
      }
    }
  }

  lemma {:induction false} PairsIndex(o: ListOptions, keys: seq<string>)
    ensures |Pairs(o, keys)| == |keys|
    ensures forall i :: 0 <= i < |keys| ==> Pairs(o, keys)[i] == (keys[i], ParamValue(o, keys[i]))
  {
    if keys != [] {
      PairsIndex(o, keys[1..]);
    }
  }

  /** Encoding single-valued entries in the order of a key list gives the
    * pieces of the pairs. */
  lemma {:induction false} PiecesOfSingletons(keys: seq<string>, v: Values, o: ListOptions, escape: string -> string)
    requires Elems(keys) <= v.Keys
    requires forall k :: k in v ==> v[k] == [ParamValue(o, k)]
    ensures Pieces(keys, v, escape) == PairPieces(Pairs(o, keys), escape)
  {
    if keys != [] {
      assert keys[0] in Elems(keys);
      ElemsCons(keys);
      PiecesOfSingletons(keys[1..], v, o, escape);
      assert KeyPieces(keys[0], v[keys[0]], escape) == [Pair(keys[0], ParamValue(o, keys[0]), escape)];
    }
  }

  /** What buildQueryString's four conditional Adds leave in the map: a key
    * for each set option only, holding that option's one formatted value. */
  predicate FilledFrom(o: ListOptions, v: Values) {
    && v.Keys <= {"limit", "marker", "sort_dir", "sort_key"}
    && ("limit" in v <==> o.limit > 0)
    && ("marker" in v <==> o.marker != "")
    && ("sort_dir" in v <==> o.sortDir != "")
    && ("sort_key" in v <==> o.sortKey != "")
    && ("limit" in v ==> v["limit"] == [Decimal.FromInt(o.limit)])
    && ("marker" in v ==> v["marker"] == [o.marker])
    && ("sort_dir" in v ==> v["sort_dir"] == [o.sortDir])
    && ("sort_key" in v ==> v["sort_key"] == [o.sortKey])
  }

  /** The parameter map buildQueryString fills in holds exactly the present
    * keys, each with its one formatted value. */
  lemma ParamsMap(o: ListOptions, v: Values)
    requires FilledFrom(o, v)
    ensures v.Keys == Elems(PresentKeys(o, ListKeys))
    ensures forall k :: k in v ==> v[k] == [ParamValue(o, k)]
  {
    PresentKeysElems(o, ListKeys);
  }

  /** The parameter map buildQueryString fills in, encoded. */
  lemma EncodedParams(o: ListOptions, v: Values, escape: string -> string)
    requires FilledFrom(o, v)
    ensures |v| == 0 <==> QueryParams(o) == []
    ensures Join(Pieces(Ascending(v.Keys), v, escape)) == Join(PairPieces(QueryParams(o), escape))
  {
    var present := PresentKeys(o, ListKeys);
    ParamsMap(o, v);
    ListKeysSorted();
    PresentKeysSorted(o, ListKeys);
    ElemsEmpty(present);
    PairsIndex(o, present);
    PiecesOfSingletons(present, v, o, escape);
    SortedUnique(Ascending(v.Keys), present);
  }

  method BuildQueryString(opts: Option<ListOptions>, escape: string -> string) returns (q: string)
    ensures q == QueryString(opts, escape)
  {
    if opts.None? {
      return "";
    }
    var o := opts.value;
    var params: Values := map[];
    if o.limit > 0 {
      params := Add(params, "limit", Decimal.FromInt(o.limit));
    }
    assert params.Keys <= {"limit"};
    assert "limit" in params <==> o.limit > 0;
    if o.marker != "" {
      params := Add(params, "marker", o.marker);
    }
    assert params.Keys <= {"limit", "marker"};
    assert "marker" in params <==> o.marker != "";
    if o.sortKey != "" {
      params := Add(params, "sort_key", o.sortKey);
    }
    assert params.Keys <= {"limit", "marker", "sort_key"};
    assert "sort_key" in params <==> o.sortKey != "";
    if o.sortDir != "" {
      params := Add(params, "sort_dir", o.sortDir);
    }
    EncodedParams(o, params, escape);
    if |params| == 0 {
      return "";
    }
    var encoded := Encode(params, escape);
    return "?" + encoded;
  }

  // ---------------------------------------------------------------------
  // Properties of the query string

  /** Nil options give the empty string. */
  lemma QueryStringNil(escape: string -> string)
    ensures QueryString(None, escape) == ""
  {
  }

  /** Every parameter is a listed, present key with its value. */
  lemma ParamsPresent(o: ListOptions)
    ensures forall p :: p in QueryParams(o) ==> p.0 in ListKeys && Present(o, p.0) && p.1 == ParamValue(o, p.0)
  {
    var keys := PresentKeys(o, ListKeys);
    PresentKeysElems(o, ListKeys);
    PairsIndex(o, keys);
    var ps := QueryParams(o);
    forall p | p in ps ensures p.0 in ListKeys && Present(o, p.0) && p.1 == ParamValue(o, p.0) {
      var i :| 0 <= i < |ps| && ps[i] == p;
      assert keys[i] in keys;
    }
  }

  /** A listed key's pair is among the parameters exactly when it is present. */
  lemma ParamListed(o: ListOptions, k: string)
    requires k in ListKeys
    ensures (k, ParamValue(o, k)) in QueryParams(o) <==> Present(o, k)
  {
    ParamsPresent(o);
    if Present(o, k) {
      var keys := PresentKeys(o, ListKeys);
      PresentKeysElems(o, ListKeys);
      PairsIndex(o, keys);
      var i :| 0 <= i < |keys| && keys[i] == k;
      assert QueryParams(o)[i] == (k, ParamValue(o, k));
    }
  }

  /** The parameter keys are strictly increasing, hence distinct. */
  lemma QueryParamsSorted(o: ListOptions)
    ensures var ps := QueryParams(o);
      forall i, j :: 0 <= i < j < |ps| ==> Before(ps[i].0, ps[j].0) && ps[i].0 != ps[j].0
  {
    ListKeysSorted();
    PresentKeysSorted(o, ListKeys);
    var keys := PresentKeys(o, ListKeys);
    PairsIndex(o, keys);
    var ps := QueryParams(o);
    forall i, j | 0 <= i < j < |ps| ensures Before(ps[i].0, ps[j].0) && ps[i].0 != ps[j].0 {
      assert ps[i].0 == keys[i] && ps[j].0 == keys[j];
      if keys[i] == keys[j] {
        BeforeIrreflexive(keys[i]);
      }
    }
  }

  /** The query string is empty exactly when no parameter applies. */
  lemma QueryStringEmptyIff(o: ListOptions, escape: string -> string)
    ensures QueryString(Some(o), escape) == "" <==>
      o.limit <= 0 && o.marker == "" && o.sortKey == "" && o.sortDir == ""
  {
    var keys := PresentKeys(o, ListKeys);
    PairsIndex(o, keys);
    PresentKeysElems(o, ListKeys);
    assert ListKeys[0] == "limit" && ListKeys[1] == "marker";
    assert ListKeys[2] == "sort_dir" && ListKeys[3] == "sort_key";
    if keys != [] {
      assert keys[0] in keys;
    } else {
      assert !Present(o, ListKeys[0]) && !Present(o, ListKeys[1]);
      assert !Present(o, ListKeys[2]) && !Present(o, ListKeys[3]);
    }
  }

  /** Each parameter appears at most once, in sorted key order, exactly when
    * its option is set; the limit only when positive, in decimal. */
  lemma QueryParamsShape(o: ListOptions)
    ensures var ps := QueryParams(o);
      forall i, j :: 0 <= i < j < |ps| ==> Before(ps[i].0, ps[j].0) && ps[i].0 != ps[j].0
    ensures ("limit", Decimal.FromInt(o.limit)) in QueryParams(o) <==> o.limit > 0
    ensures ("marker", o.marker) in QueryParams(o) <==> o.marker != ""
    ensures ("sort_key", o.sortKey) in QueryParams(o) <==> o.sortKey != ""
    ensures ("sort_dir", o.sortDir) in QueryParams(o) <==> o.sortDir != ""
    ensures forall p :: p in QueryParams(o) ==> Present(o, p.0) && p.1 == ParamValue(o, p.0)
  {
    assert ListKeys[0] == "limit" && ListKeys[1] == "marker";
    assert ListKeys[2] == "sort_dir" && ListKeys[3] == "sort_key";
    ParamListed(o, "limit");
    ParamListed(o, "marker");
    ParamListed(o, "sort_dir");
    ParamListed(o, "sort_key");
    ParamsPresent(o);
    QueryParamsSorted(o);
  }

  // ---------------------------------------------------------------------
  // StringPtr, BoolPtr, IntPtr

  /** A heap cell, standing for the variable a Go pointer points to. */
  class Cell<T> {
    var value: T

    constructor (v: T)
      ensures value == v
    {
      value := v;
    }
  }

  method StringPtr(s: string) returns (p: Cell<string>)
    ensures fresh(p) && p.value == s
  {
    p := new Cell(s);
  }

  method BoolPtr(b: bool) returns (p: Cell<bool>)
    ensures fresh(p) && p.value == b
  {
    p := new Cell(b);
  }

  method IntPtr(i: int) returns (p: Cell<int>)
    ensures fresh(p) && p.value == i
  {
    p := new Cell(i);
  }
}
