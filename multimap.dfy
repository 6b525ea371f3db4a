/**
  The multi-valued maps of Go's net/http and net/url: `http.Header` and
  `url.Values` are both `map[string][]string`, with `Set` replacing the values
  of a key by a single value, `Add` appending one, and `Get` reading the first
  value or "" when there is none. Header names are taken as already
  canonicalised.
 */
module Multimap {
  type Values = map<string, seq<string>>

  /** The values stored for `key`, empty when the key is absent. */
  function Lookup(h: Values, key: string): seq<string>
  {
    if key in h then h[key] else []
  }

  /** `Get`: the first value of `key`, or "" when it has none. */
  function Get(h: Values, key: string): (v: string)
    ensures |Lookup(h, key)| > 0 ==> v == Lookup(h, key)[0]
    ensures |Lookup(h, key)| == 0 ==> v == ""
  {
    if key in h && |h[key]| > 0 then h[key][0] else ""
  }

  /** True when `r` and `h` agree on every key other than `key`. */
  ghost predicate SameElsewhere(r: Values, h: Values, key: string)
  {
    forall k :: k != key ==> (k in r <==> k in h) && (k in h ==> r[k] == h[k])
  }

  /** `Set`: the values of `key` become exactly `[value]`, whatever they were. */
  function Set(h: Values, key: string, value: string): (r: Values)
    ensures Lookup(r, key) == [value]
    ensures SameElsewhere(r, h, key)
  {
    h[key := [value]]
  }

  /** `Add`: `value` is appended after the existing values of `key`. */
  function Add(h: Values, key: string, value: string): (r: Values)
    ensures Lookup(r, key) == Lookup(h, key) + [value]
    ensures SameElsewhere(r, h, key)
  {
    h[key := Lookup(h, key) + [value]]
  }

  /** The form after `Add(args[0], args[1])`, `Add(args[2], args[3])`, ... in order. */
  function AddPairs(f: Values, args: seq<string>): Values
    requires |args| % 2 == 0
    decreases |args|
  {
    if |args| == 0 then f
    else
      var n := |args|;
      Add(AddPairs(f, args[..n - 2]), args[n - 2], args[n - 1])
  }

  /** The values paired with `key` in the flat key/value list `args`, in order. */
  function PairedValues(args: seq<string>, key: string): seq<string>
    requires |args| % 2 == 0
    decreases |args|
  {
    if |args| == 0 then []
    else
      var n := |args|;
      PairedValues(args[..n - 2], key) + (if args[n - 2] == key then [args[n - 1]] else [])
  }

  /** The keys named in the flat key/value list `args`. */
  function PairedKeys(args: seq<string>): set<string>
    requires |args| % 2 == 0
    decreases |args|
  {
    if |args| == 0 then {} else PairedKeys(args[..|args| - 2]) + {args[|args| - 2]}
  }

  /**
    Adding pairs never overwrites: every key keeps its earlier values and gains
    the values paired with it, in argument order; the keys are the old keys plus
    the named ones.
   */
  lemma {:induction false} AddPairsAppends(f: Values, args: seq<string>, key: string)
    requires |args| % 2 == 0
    ensures Lookup(AddPairs(f, args), key) == Lookup(f, key) + PairedValues(args, key)
    ensures AddPairs(f, args).Keys == f.Keys + PairedKeys(args)
    decreases |args|
  {
    if |args| > 0 {
      var n := |args|;
      AddPairsAppends(f, args[..n - 2], key);
      var g := AddPairs(f, args[..n - 2]);
      var r := Add(g, args[n - 2], args[n - 1]);
      assert r.Keys == g.Keys + {args[n - 2]};
    }
  }
}
