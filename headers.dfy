/** Request headers as the service builds them: a plain JavaScript object from
    header name to value. Names are compared exactly, as object keys are, and
    keep the position of their first insertion; `{ ...a, ...b }` and
    `{ ...a, [name]: value }` are the two ways the service combines them. */
module Headers {
  import opened Common

  datatype Header = Header(name: string, value: string)

  /** A header object is a sequence of entries in key order. */
  type Record = seq<Header>

  function Names(h: Record): set<string> {
    if h == [] then {} else {h[0].name} + Names(h[1..])
  }

  /** Object keys are distinct; every header object the service builds has
      this property when its configured headers do. */
  ghost predicate DistinctNames(h: Record) {
    h == [] || (h[0].name !in Names(h[1..]) && DistinctNames(h[1..]))
  }

  /** `h[name]`: the value stored under `name`, if any. */
  function Lookup(h: Record, name: string): (r: Option<string>)
    ensures r.Some? <==> name in Names(h)
    ensures r.Some? ==> Header(name, r.value) in h
  {
    if h == [] then None
    else if h[0].name == name then Some(h[0].value)
    else Lookup(h[1..], name)
  }

  /** `{ ...h, [name]: value }`: an existing `name` keeps its position and takes
      the new value; a new `name` is appended at the end. */
  function Put(h: Record, name: string, value: string): (r: Record)
    ensures Names(r) == Names(h) + {name}
    ensures Lookup(r, name) == Some(value)
    ensures forall k :: k != name ==> Lookup(r, k) == Lookup(h, k)
    ensures |r| == if name in Names(h) then |h| else |h| + 1
    ensures forall i :: 0 <= i < |h| ==> r[i].name == h[i].name
    ensures DistinctNames(h) ==> DistinctNames(r)
  {
    if h == [] then [Header(name, value)]
    else if h[0].name == name then [Header(name, value)] + h[1..]
    else [h[0]] + Put(h[1..], name, value)
  }

  /** `{ ...base, ...over }`: the entries of `over` are put over `base` one by
      one, in their order. */
  function Spread(base: Record, over: Record): (r: Record)
    ensures Names(r) == Names(base) + Names(over)
    ensures |base| <= |r|
    ensures forall i :: 0 <= i < |base| ==> r[i].name == base[i].name
    ensures DistinctNames(base) ==> DistinctNames(r)
    decreases |over|
  {
    if over == [] then base
    else
      var init, e := over[..|over| - 1], over[|over| - 1];
      var r := Spread(base, init);
      assert over == init + [e];
      NamesSnoc(init, e);
      Put(r, e.name, e.value)
  }

  lemma {:induction false} NamesSnoc(h: Record, e: Header)
    ensures h + [e] == (h + [e])[..|h|] + [e] && (h + [e])[..|h|] == h
    ensures Names(h + [e]) == Names(h) + {e.name}
  {
    if h != [] {
      NamesSnoc(h[1..], e);
      assert (h + [e])[1..] == h[1..] + [e];
    }
  }

  lemma {:induction false} LookupSnoc(h: Record, e: Header, k: string)
    ensures Lookup(h + [e], k) ==
      if k in Names(h) then Lookup(h, k) else if k == e.name then Some(e.value) else None
  {
    if h != [] {
      LookupSnoc(h[1..], e, k);
      assert (h + [e])[1..] == h[1..] + [e];
    }
  }

  lemma {:induction false} DistinctSnoc(h: Record, e: Header)
    requires DistinctNames(h + [e])
    ensures DistinctNames(h) && e.name !in Names(h)
  {
    if h != [] {
      assert (h + [e])[1..] == h[1..] + [e];
      NamesSnoc(h[1..], e);
      DistinctSnoc(h[1..], e);
    }
  }

  /** In `{ ...base, ...over }` the keys of `over` win and every other key keeps
      its value from `base`. */
  lemma {:induction false} SpreadLookup(base: Record, over: Record, k: string)
    requires DistinctNames(over)
    ensures Lookup(Spread(base, over), k) ==
      if k in Names(over) then Lookup(over, k) else Lookup(base, k)
  {
    if over != [] {
      var init, e := over[..|over| - 1], over[|over| - 1];
      assert over == init + [e];
      DistinctSnoc(init, e);
      NamesSnoc(init, e);
      LookupSnoc(init, e, k);
      var r0 := Spread(base, init);
      assert Spread(base, over) == Put(r0, e.name, e.value);
      if k == e.name {
        assert Lookup(over, k) == Some(e.value);
      } else {
        assert Lookup(Put(r0, e.name, e.value), k) == Lookup(r0, k);
        SpreadLookup(base, init, k);
      }
    }
  }
}
