/**
 * net/url's Values: a multimap from parameter names to the list of their values, where Add
 * appends to a name's list. The pure functions specify it; the class is the mutable map the
 * encoders add to.
 */
module UrlValues {

  type Multimap = map<string, seq<string>>

  /** One name=value pair, in the order an encoder adds it. */
  type Param = (string, string)

  /** The values a name has; a missing name has none. */
  function Get(m: Multimap, key: string): seq<string>
  {
    if key in m then m[key] else []
  }

  /** The multimap after url.Values.Add(key, value): value appended to key's list, nothing else changed. */
  function Appended(m: Multimap, key: string, value: string): (r: Multimap)
    ensures r.Keys == m.Keys + {key}
    ensures Get(r, key) == Get(m, key) + [value]
    ensures forall k | k in m && k != key :: r[k] == m[k]
  {
    m[key := Get(m, key) + [value]]
  }

  /** Appending under one name leaves every other name's values as they were. */
  lemma GetAppendedOther(m: Multimap, key: string, value: string, x: string)
    requires x != key
    ensures Get(Appended(m, key, value), x) == Get(m, x)
  {
  }

  /** The multimap after adding the pairs of ps one by one, in order. */
  function AddAll(m: Multimap, ps: seq<Param>): Multimap
    decreases |ps|
  {
    if ps == [] then m else Appended(AddAll(m, ps[..|ps| - 1]), ps[|ps| - 1].0, ps[|ps| - 1].1)
  }

  /** The values ps gives to key, in order. */
  function ValuesOf(ps: seq<Param>, key: string): seq<string>
    decreases |ps|
  {
    if ps == [] then []
    else ValuesOf(ps[..|ps| - 1], key) + (if ps[|ps| - 1].0 == key then [ps[|ps| - 1].1] else [])
  }

  /** The names ps mentions. */
  function KeysOf(ps: seq<Param>): set<string>
  {
    set i | 0 <= i < |ps| :: ps[i].0
  }

  /** After AddAll, each name holds its old values followed by the values ps gives it, in order. */
  lemma {:induction false} AddAllGet(m: Multimap, ps: seq<Param>, key: string)
    ensures Get(AddAll(m, ps), key) == Get(m, key) + ValuesOf(ps, key)
    decreases |ps|
  {
    if ps != [] {
      AddAllGet(m, ps[..|ps| - 1], key);
    }
  }

  /** AddAll adds exactly the names ps mentions. */
  lemma {:induction false} AddAllKeys(m: Multimap, ps: seq<Param>)
    ensures AddAll(m, ps).Keys == m.Keys + KeysOf(ps)
    decreases |ps|
  {
    if ps != [] {
      var init := ps[..|ps| - 1];
      AddAllKeys(m, init);
      assert KeysOf(ps) == KeysOf(init) + {ps[|ps| - 1].0} by {
        forall k | k in KeysOf(ps) ensures k in KeysOf(init) + {ps[|ps| - 1].0} {
          var i :| 0 <= i < |ps| && ps[i].0 == k;
          if i < |ps| - 1 { assert init[i] == ps[i]; }
        }
        forall k | k in KeysOf(init) ensures k in KeysOf(ps) {
          var i :| 0 <= i < |init| && init[i].0 == k;
          assert ps[i] == init[i];
        }
      }
    }
  }

  /** A name that ps never mentions gets no values from it. */
  lemma {:induction false} ValuesOfAbsent(ps: seq<Param>, key: string)
    requires forall i | 0 <= i < |ps| :: ps[i].0 != key
    ensures ValuesOf(ps, key) == []
    decreases |ps|
  {
    if ps != [] {
      ValuesOfAbsent(ps[..|ps| - 1], key);
    }
  }

  lemma {:induction false} ValuesOfConcat(ps: seq<Param>, qs: seq<Param>, key: string)
    ensures ValuesOf(ps + qs, key) == ValuesOf(ps, key) + ValuesOf(qs, key)
    decreases |qs|
  {
    if qs == [] {
      assert ps + qs == ps;
    } else {
      assert (ps + qs)[..|ps + qs| - 1] == ps + qs[..|qs| - 1];
      ValuesOfConcat(ps, qs[..|qs| - 1], key);
    }
  }

  /** Adding two lists one after the other is adding their concatenation. */
  lemma {:induction false} AddAllConcat(m: Multimap, ps: seq<Param>, qs: seq<Param>)
    ensures AddAll(m, ps + qs) == AddAll(AddAll(m, ps), qs)
    decreases |qs|
  {
    if qs == [] {
      assert ps + qs == ps;
    } else {
      assert (ps + qs)[..|ps + qs| - 1] == ps + qs[..|qs| - 1];
      AddAllConcat(m, ps, qs[..|qs| - 1]);
    }
  }

  /** Adding one more pair is one more url.Values.Add. */
  lemma AddAllSnoc(m: Multimap, ps: seq<Param>, key: string, value: string)
    ensures AddAll(m, ps + [(key, value)]) == Appended(AddAll(m, ps), key, value)
  {
    assert (ps + [(key, value)])[..|ps|] == ps;
  }

  /** url.Values: the map is never nil here (a nil map would make Add panic). */
  class Values {
    var entries: Multimap

    /** url.Values{}: no names. */
    constructor ()
      ensures entries == map[]
    {
      entries := map[];
    }

    /** url.Values.Add. */
    method Add(key: string, value: string)
      modifies this
      ensures entries == Appended(old(entries), key, value)
    {
      entries := Appended(entries, key, value);
    }
  }
}
