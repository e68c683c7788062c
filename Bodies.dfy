/** The solar system's body registry (`SolarSystem` in dist/main/objects/system.js).

    The registry is built once from the sun's record and a flat list of orbiting-body records.
    Each record names its attractor by id: 0 is the sun, any other id is a body registered
    earlier in the list. The registry keeps an id-keyed table (a JavaScript `Map`) and appends
    every new body to its attractor's `orbiters` list. */
module Bodies {
  import opened Wrappers
  import Decimal

  /** The catalogue record of one body (its `data`); for the sun `orbiting` is not used. */
  datatype BodyData = BodyData(id: int, name: string, radius: real, soi: real, orbiting: int)

  datatype LookupError = NoBodyWithId(id: int) | NoBodyWithName(name: string)

  /** A celestial body: the sun (no attractor) or an orbiting body. */
  class Body {
    const info: BodyData
    const id: int := info.id
    const name: string := info.name
    const attractor: Body?
    var orbiters: seq<Body>

    constructor (info: BodyData, attractor: Body?)
      ensures this.info == info && this.attractor == attractor && orbiters == []
    {
      this.info := info;
      this.attractor := attractor;
      orbiters := [];
    }
  }

  /** The table a JavaScript `Map` holds after `set(b.id, b)` for each body in turn:
      a later body with an id already present replaces the earlier one. */
  function TableOf(bodies: seq<Body>): map<int, Body> {
    if bodies == [] then map[]
    else
      var last := bodies[|bodies| - 1];
      TableOf(bodies[..|bodies| - 1])[last.id := last]
  }

  /** The key order of that `Map`: a key keeps the position of its first insertion. */
  function KeyOrder(bodies: seq<Body>): seq<int> {
    if bodies == [] then []
    else
      var prev := KeyOrder(bodies[..|bodies| - 1]);
      var id := bodies[|bodies| - 1].id;
      if id in prev then prev else prev + [id]
  }

  /** The bodies of `bodies` whose attractor is `parent`, in list order. */
  function Children(bodies: seq<Body>, parent: Body): seq<Body> {
    if bodies == [] then []
    else
      var last := bodies[|bodies| - 1];
      Children(bodies[..|bodies| - 1], parent) + (if last.attractor == parent then [last] else [])
  }

  /** The values of `table` in the order of `keys` (`[...map.values()]`). */
  function ValuesInOrder(keys: seq<int>, table: map<int, Body>): (r: seq<Body>)
    requires forall i | 0 <= i < |keys| :: keys[i] in table
    ensures |r| == |keys|
    ensures forall i | 0 <= i < |keys| :: r[i] == table[keys[i]]
  {
    if keys == [] then [] else [table[keys[0]]] + ValuesInOrder(keys[1..], table)
  }

  /** The catalogue lists every attractor before the bodies orbiting it. */
  predicate AttractorsListedFirst(data: seq<BodyData>) {
    forall i | 0 <= i < |data| ::
      data[i].orbiting == 0 || exists j | 0 <= j < i :: data[j].id == data[i].orbiting
  }

  /** Each body was linked, when it was registered, to the sun (orbiting == 0) or to the body
      then registered under its `orbiting` id. */
  ghost predicate LinkedAtRegistration(sun: Body, bodies: seq<Body>) {
    forall i | 0 <= i < |bodies| ::
      if bodies[i].info.orbiting == 0 then bodies[i].attractor == sun
      else
        var earlier := TableOf(bodies[..i]);
        bodies[i].info.orbiting in earlier && bodies[i].attractor == earlier[bodies[i].info.orbiting]
  }

  predicate NoDuplicates(s: seq<int>) {
    forall i, j | 0 <= i < j < |s| :: s[i] != s[j]
  }

  function Ids(bodies: seq<Body>): set<int> {
    set i | 0 <= i < |bodies| :: bodies[i].id
  }

  class SolarSystem {
    const sun: Body
    /** `_orbiting`: the id-keyed table, and the order of its keys. */
    var table: map<int, Body>
    var order: seq<int>
    /** Every orbiting body the constructor created, in input order. */
    ghost var created: seq<Body>

    ghost predicate Valid()
      reads this, sun, created
    {
      && sun.attractor == null
      && sun !in created
      && table == TableOf(created)
      && order == KeyOrder(created)
      && LinkedAtRegistration(sun, created)
      && OrbitersMatch(sun, created)
    }

    constructor (sunData: BodyData, data: seq<BodyData>)
      requires AttractorsListedFirst(data)
      ensures Valid()
      ensures sun.info == sunData && sun.id == sunData.id && sun.name == sunData.name
      ensures |created| == |data|
      ensures forall i | 0 <= i < |data| ::
        created[i].info == data[i] && created[i].id == data[i].id && created[i].name == data[i].name
    {
      var s := new Body(sunData, null);
      var t: map<int, Body> := map[];
      var ord: seq<int> := [];
      ghost var made: seq<Body> := [];
      for i := 0 to |data|
        invariant |made| == i && Registered(s, made, data, t, ord)
        invariant s.attractor == null
        invariant OrbitersMatch(s, made)
        invariant forall k | 0 <= k < i :: fresh(made[k])
      {
        var b;
        b, t, ord := Register(data[i], s, t, ord, made, data);
        made := made + [b];
      }
      sun := s;
      table := t;
      order := ord;
      created := made;
    }

    /** `orbiting`: the bodies of the table, one per registered id, in first-registration order. */
    function Orbiting(): (r: seq<Body>)
      requires Valid()
      reads this, sun, created
      ensures |r| == |table.Keys|
      ensures forall b | b in r :: b in created
    {
      KeyOrderSpec(created);
      TableOfKeys(created);
      DistinctCount(order, table.Keys);
      TableValuesCreated(created);
      ValuesInOrder(order, table)
    }

    /** `bodies`: the sun first, then the orbiting bodies. */
    function AllBodies(): (r: seq<Body>)
      requires Valid()
      reads this, sun, created
      ensures |r| == 1 + |table.Keys|
      ensures r[0] == sun && forall i | 1 <= i < |r| :: r[i] in created
    {
      [sun] + Orbiting()
    }

    /** `bodyFromId`: id 0 is the sun whatever the table holds; any other id is looked up. */
    function BodyFromId(id: int): (r: Result<Body, LookupError>)
      reads this
      ensures id == 0 ==> r == Ok(sun)
      ensures r.Err? ==> id != 0 && r.error == NoBodyWithId(id)
    {
      if id == 0 then Ok(sun)
      else if id in table then Ok(table[id])
      else Err(NoBodyWithId(id))
    }

    /** `bodyFromName`: the first body, in `bodies` order, carrying that name. */
    method BodyFromName(name: string) returns (r: Result<Body, LookupError>)
      requires Valid()
      ensures r.Ok? ==> exists k | 0 <= k < |AllBodies()| ::
                          && AllBodies()[k] == r.value
                          && r.value.name == name
                          && forall j | 0 <= j < k :: AllBodies()[j].name != name
      ensures r.Err? ==> r.error == NoBodyWithName(name)
                         && forall k | 0 <= k < |AllBodies()| :: AllBodies()[k].name != name
    {
      var all := AllBodies();
      for i := 0 to |all|
        invariant forall j | 0 <= j < i :: all[j].name != name
      {
        if all[i].name == name {
          return Ok(all[i]);
        }
      }
      return Err(NoBodyWithName(name));
    }

    /** `data`: the catalogue record of every body, in `bodies` order. */
    method Data() returns (r: seq<BodyData>)
      requires Valid()
      ensures |r| == |AllBodies()|
      ensures forall i | 0 <= i < |r| :: r[i] == AllBodies()[i].info
    {
      var all := AllBodies();
      r := [];
      for i := 0 to |all|
        invariant |r| == i
        invariant forall j | 0 <= j < i :: r[j] == all[j].info
      {
        r := r + [all[i].info];
      }
    }

    /** A non-zero id resolves exactly when some body was registered under it, and then to the
        last body registered under it. */
    lemma BodyFromIdRegistered(id: int)
      requires Valid() && id != 0
      ensures BodyFromId(id).Ok? <==> exists i | 0 <= i < |created| :: created[i].id == id
      ensures BodyFromId(id).Ok? ==> exists i | 0 <= i < |created| ::
                                      && created[i] == BodyFromId(id).value
                                      && created[i].id == id
                                      && forall j | i < j < |created| :: created[j].id != id
    {
      TableOfKeys(created);
      if id in table {
        var i := LastIndexOf(created, id);
        TableOfLatest(created, i);
      }
    }

    /** Every orbiting body's attractor is the sun, or a body registered before it under the id
        it names (the latest such body). */
    lemma AttractorRegisteredEarlier(i: int)
      requires Valid() && 0 <= i < |created|
      ensures created[i].info.orbiting == 0 ==> created[i].attractor == sun
      ensures created[i].info.orbiting != 0 ==> exists j | 0 <= j < i ::
                && created[i].attractor == created[j]
                && created[j].id == created[i].info.orbiting
                && forall m | j < m < i :: created[m].id != created[j].id
    {
      LinkedAttractor(sun, created, i);
    }

    /** Every orbiting body sits in its own attractor's `orbiters` list and in no other body's. */
    lemma OrbitersHoldExactlyTheirSatellites(b: Body, c: Body)
      requires Valid()
      requires b == sun || b in created
      ensures c in b.orbiters <==> c in created && c.attractor == b
    {
      ChildrenMembers(created, b, c);
    }

    /** With distinct ids, `bodies` is the sun followed by every orbiting body in input order. */
    lemma DistinctIdsEnumerateInInputOrder()
      requires Valid()
      requires forall i, j | 0 <= i < j < |created| :: created[i].id != created[j].id
      ensures AllBodies() == [sun] + created
    {
      DistinctKeyOrder(created);
      var r := Orbiting();
      forall i | 0 <= i < |created|
        ensures r[i] == created[i]
      {
        TableOfLatest(created, i);
      }
    }
  }

  /** Every body's `orbiters` list holds exactly the bodies orbiting it, in registration order. */
  ghost predicate OrbitersMatch(sun: Body, bodies: seq<Body>)
    reads sun, bodies
  {
    && sun.orbiters == Children(bodies, sun)
    && forall k | 0 <= k < |bodies| :: bodies[k].orbiters == Children(bodies, bodies[k])
  }

  /** One pass of the constructor's loop: create the body for record `d`, linked to the sun
      (orbiting 0) or to the body registered under its `orbiting` id, put it in the table and
      push it onto its attractor's `orbiters`. */
  method Register(d: BodyData, sun: Body, t: map<int, Body>, ord: seq<int>,
                  ghost made: seq<Body>, ghost data: seq<BodyData>)
    returns (b: Body, t': map<int, Body>, ord': seq<int>)
    requires AttractorsListedFirst(data) && |made| < |data| && d == data[|made|]
    requires Registered(sun, made, data, t, ord) && OrbitersMatch(sun, made)
    modifies sun, made
    ensures fresh(b)
    ensures Registered(sun, made + [b], data, t', ord') && OrbitersMatch(sun, made + [b])
  {
    if d.orbiting != 0 {
      AttractorRegistered(sun, made, data);
    }
    var attractor := if d.orbiting == 0 then sun else t[d.orbiting];
    b := new Body(d, attractor);
    RegisterOne(sun, made, data, b);
    ord' := if b.id !in t then ord + [b.id] else ord;
    t' := t[b.id := b];
    PushOrbiter(attractor, b, sun, made);
  }

  /** `attractor.orbiters.push(b)` for a freshly created `b`: every list keeps matching. */
  method PushOrbiter(attractor: Body, b: Body, ghost sun: Body, ghost bodies: seq<Body>)
    requires OrbitersMatch(sun, bodies)
    requires attractor == sun || attractor in bodies
    requires b != sun && b !in bodies && b.attractor == attractor && b != attractor
    requires b.orbiters == [] && Children(bodies, b) == []
    modifies attractor
    ensures attractor.orbiters == old(attractor.orbiters) + [b]
    ensures OrbitersMatch(sun, bodies + [b])
  {
    attractor.orbiters := attractor.orbiters + [b];
    var next := bodies + [b];
    ChildrenAppend(bodies, b, sun);
    forall k | 0 <= k < |next|
      ensures next[k].orbiters == Children(next, next[k])
    {
      ChildrenAppend(bodies, b, next[k]);
      if k < |bodies| {
        assert next[k] == bodies[k];
      }
    }
  }

  // ---- lemmas about the Map model ----

  /** What the constructor's loop has built after registering `bodies`, the first records of `data`. */
  ghost predicate Registered(sun: Body, bodies: seq<Body>, data: seq<BodyData>, t: map<int, Body>, ord: seq<int>) {
    && |bodies| <= |data|
    && (forall k | 0 <= k < |bodies| :: bodies[k].info == data[k] && bodies[k].id == data[k].id)
    && sun !in bodies
    && t == TableOf(bodies)
    && ord == KeyOrder(bodies)
    && LinkedAtRegistration(sun, bodies)
    && (forall k | 0 <= k < |bodies| :: bodies[k].attractor == sun || bodies[k].attractor in bodies)
  }

  /** With the attractors listed first, the next record's attractor id is already in the table. */
  lemma AttractorRegistered(sun: Body, bodies: seq<Body>, data: seq<BodyData>)
    requires AttractorsListedFirst(data) && |bodies| < |data|
    requires Registered(sun, bodies, data, TableOf(bodies), KeyOrder(bodies))
    requires data[|bodies|].orbiting != 0
    ensures data[|bodies|].orbiting in TableOf(bodies)
    ensures TableOf(bodies)[data[|bodies|].orbiting] in bodies
  {
    TableOfKeys(bodies);
    TableValuesCreated(bodies);
    var j :| 0 <= j < |bodies| && data[j].id == data[|bodies|].orbiting;
    assert bodies[j].id == data[|bodies|].orbiting;
  }

  /** One iteration of the constructor's loop keeps `Registered`. */
  lemma RegisterOne(sun: Body, bodies: seq<Body>, data: seq<BodyData>, b: Body)
    requires |bodies| < |data| && Registered(sun, bodies, data, TableOf(bodies), KeyOrder(bodies))
    requires b.info == data[|bodies|] && b.id == data[|bodies|].id
    requires b != sun && b !in bodies && b.attractor != b
    requires b.info.orbiting == 0 ==> b.attractor == sun
    requires b.info.orbiting != 0 ==>
               b.info.orbiting in TableOf(bodies) && b.attractor == TableOf(bodies)[b.info.orbiting]
                 && b.attractor in bodies
    ensures b.id in TableOf(bodies) <==> b.id in KeyOrder(bodies)
    ensures Registered(sun, bodies + [b], data, TableOf(bodies)[b.id := b],
                       if b.id in TableOf(bodies) then KeyOrder(bodies) else KeyOrder(bodies) + [b.id])
    ensures forall k | 0 <= k < |bodies| :: bodies[k].attractor != b
    ensures Children(bodies, b) == []
  {
    var next := bodies + [b];
    KeyOrderSpec(bodies);
    TableOfKeys(bodies);
    AppendOne(bodies, b);
    LinkedExtend(sun, bodies, b);
    ChildrenNone(bodies, b);
    forall k | 0 <= k < |next| ensures next[k].attractor == sun || next[k].attractor in next {
      if k < |bodies| {
        assert next[k] == bodies[k];
      }
    }
  }

  lemma LinkedAttractor(sun: Body, bodies: seq<Body>, i: int)
    requires LinkedAtRegistration(sun, bodies) && 0 <= i < |bodies|
    ensures bodies[i].info.orbiting == 0 ==> bodies[i].attractor == sun
    ensures bodies[i].info.orbiting != 0 ==> exists j | 0 <= j < i ::
              && bodies[i].attractor == bodies[j]
              && bodies[j].id == bodies[i].info.orbiting
              && forall m | j < m < i :: bodies[m].id != bodies[j].id
  {
    var id := bodies[i].info.orbiting;
    if id != 0 {
      var earlier := bodies[..i];
      assert id in TableOf(earlier) && bodies[i].attractor == TableOf(earlier)[id];
      TableOfKeys(earlier);
      var j := LastIndexOf(earlier, id);
      TableOfLatest(earlier, j);
      assert earlier[j] == bodies[j];
      forall m | j < m < i ensures bodies[m].id != id {
        assert earlier[m] == bodies[m];
      }
    }
  }

  /** Registering one more body, linked as the source links it, keeps every body linked. */
  lemma LinkedExtend(sun: Body, bodies: seq<Body>, b: Body)
    requires LinkedAtRegistration(sun, bodies)
    requires b.info.orbiting == 0 ==> b.attractor == sun
    requires b.info.orbiting != 0 ==>
               b.info.orbiting in TableOf(bodies) && b.attractor == TableOf(bodies)[b.info.orbiting]
    ensures LinkedAtRegistration(sun, bodies + [b])
  {
    var all := bodies + [b];
    assert all[..|bodies|] == bodies;
    forall i | 0 <= i < |bodies| ensures all[..i] == bodies[..i] { }
  }

  function LastIndexOf(bodies: seq<Body>, id: int): (i: int)
    requires id in Ids(bodies)
    ensures 0 <= i < |bodies| && bodies[i].id == id
    ensures forall j | i < j < |bodies| :: bodies[j].id != id
  {
    var last := |bodies| - 1;
    if bodies[last].id == id then last
    else
      assert id in Ids(bodies[..last]) by {
        var k :| 0 <= k < |bodies| && bodies[k].id == id;
        assert bodies[..last][k] == bodies[k];
      }
      LastIndexOf(bodies[..last], id)
  }

  lemma {:induction false} TableOfKeys(bodies: seq<Body>)
    ensures TableOf(bodies).Keys == Ids(bodies)
  {
    if bodies != [] {
      var init := bodies[..|bodies| - 1];
      TableOfKeys(init);
      assert Ids(bodies) == Ids(init) + {bodies[|bodies| - 1].id} by {
        forall k | 0 <= k < |init| ensures init[k] == bodies[k] { }
      }
    }
  }

  /** A body that no later body shares its id with is the one the table holds for that id. */
  lemma {:induction false} TableOfLatest(bodies: seq<Body>, i: int)
    requires 0 <= i < |bodies|
    requires forall j | i < j < |bodies| :: bodies[j].id != bodies[i].id
    ensures bodies[i].id in TableOf(bodies) && TableOf(bodies)[bodies[i].id] == bodies[i]
  {
    var last := |bodies| - 1;
    if i < last {
      TableOfLatest(bodies[..last], i);
    }
  }

  lemma {:induction false} TableValuesCreated(bodies: seq<Body>)
    ensures forall k | k in TableOf(bodies) :: TableOf(bodies)[k] in bodies
  {
    if bodies != [] {
      TableValuesCreated(bodies[..|bodies| - 1]);
      var init := bodies[..|bodies| - 1];
      forall b | b in init ensures b in bodies {
        var j :| 0 <= j < |init| && init[j] == b;
        assert bodies[j] == b;
      }
    }
  }

  /** The key order lists every registered id exactly once. */
  lemma {:induction false} KeyOrderSpec(bodies: seq<Body>)
    ensures NoDuplicates(KeyOrder(bodies))
    ensures forall k :: k in KeyOrder(bodies) <==> k in Ids(bodies)
  {
    if bodies != [] {
      var init := bodies[..|bodies| - 1];
      KeyOrderSpec(init);
      TableOfKeys(bodies);
      TableOfKeys(init);
    }
  }

  lemma {:induction false} DistinctKeyOrder(bodies: seq<Body>)
    requires forall i, j | 0 <= i < j < |bodies| :: bodies[i].id != bodies[j].id
    ensures |KeyOrder(bodies)| == |bodies|
    ensures forall i | 0 <= i < |bodies| :: KeyOrder(bodies)[i] == bodies[i].id
  {
    if bodies != [] {
      var init := bodies[..|bodies| - 1];
      DistinctKeyOrder(init);
      KeyOrderSpec(init);
      var last := bodies[|bodies| - 1];
      assert last.id !in Ids(init) by {
        forall k | 0 <= k < |init| ensures init[k].id != last.id {
          assert init[k] == bodies[k];
        }
      }
    }
  }

  /** A duplicate-free sequence has as many elements as the set of its elements. */
  lemma {:induction false} DistinctCount(s: seq<int>, elems: set<int>)
    requires NoDuplicates(s)
    requires forall k :: k in s <==> k in elems
    ensures |s| == |elems|
  {
    if s == [] {
      assert forall k :: k !in elems;
      assert elems == {};
    } else {
      var rest := s[1..];
      assert NoDuplicates(rest) by {
        forall i, j | 0 <= i < j < |rest| ensures rest[i] != rest[j] {
          assert rest[i] == s[i + 1] && rest[j] == s[j + 1];
        }
      }
      assert s[0] !in rest by {
        forall i | 0 <= i < |rest| ensures rest[i] != s[0] {
          assert rest[i] == s[i + 1];
        }
      }
      forall k ensures k in rest <==> k in elems - {s[0]} {
        if k in elems - {s[0]} {
          assert k in s;
          var i :| 0 <= i < |s| && s[i] == k;
          assert i != 0;
          assert rest[i - 1] == k;
        }
      }
      DistinctCount(rest, elems - {s[0]});
      assert s[0] in elems;
      assert elems == (elems - {s[0]}) + {s[0]};
    }
  }

  /** The Map model and the child lists after registering one more body. */
  lemma AppendOne(bodies: seq<Body>, b: Body)
    ensures TableOf(bodies + [b]) == TableOf(bodies)[b.id := b]
    ensures KeyOrder(bodies + [b]) ==
              if b.id in KeyOrder(bodies) then KeyOrder(bodies) else KeyOrder(bodies) + [b.id]
  {
    assert (bodies + [b])[..|bodies|] == bodies;
  }

  /** Appending a body extends exactly its attractor's child list. */
  lemma ChildrenAppend(bodies: seq<Body>, b: Body, p: Body)
    ensures Children(bodies + [b], p) == Children(bodies, p) + (if b.attractor == p then [b] else [])
  {
    assert (bodies + [b])[..|bodies|] == bodies;
  }

  lemma {:induction false} ChildrenNone(bodies: seq<Body>, p: Body)
    requires forall k | 0 <= k < |bodies| :: bodies[k].attractor != p
    ensures Children(bodies, p) == []
  {
    if bodies != [] {
      ChildrenNone(bodies[..|bodies| - 1], p);
    }
  }

  lemma {:induction false} ChildrenMembers(bodies: seq<Body>, p: Body, c: Body)
    ensures c in Children(bodies, p) <==> c in bodies && c.attractor == p
  {
    if bodies != [] {
      var init := bodies[..|bodies| - 1];
      ChildrenMembers(init, p, c);
      assert bodies == init + [bodies[|bodies| - 1]];
    }
  }
}
