/** The container runtime that the bootstrap script drives through dockerode,
    reduced to the state its calls observe and change: the list of containers
    (running or not) with their names, and the set of running ones. Every call
    may fail; a failing call changes nothing. */
module Docker {

  /** A host-port binding: container port (such as "2181/tcp") to host port. */
  datatype PortBinding = PortBinding(containerPort: string, hostPort: string)

  /** What `listContainers({all: true})` reports of a container and what
      `createContainer` was given: the names the runtime lists (each starting
      with "/"), the image, the port bindings and the environment list. */
  datatype Container = Container(
    id: nat,
    names: seq<string>,
    image: string,
    ports: seq<PortBinding>,
    env: seq<string>)

  /** `c.Names.includes("/" + name)`: one of the listed names is exactly
      "/" + name (element equality, not a prefix test). */
  predicate Matches(c: Container, name: string) {
    "/" + name in c.names
  }

  /** The containers that match `name`, in list order. */
  function Named(cs: seq<Container>, name: string): seq<Container> {
    if cs == [] then []
    else (if Matches(cs[0], name) then [cs[0]] else []) + Named(cs[1..], name)
  }

  /** What is selected is exactly the listed containers that match. */
  lemma {:induction false} NamedMembers(cs: seq<Container>, name: string)
    ensures forall c :: c in Named(cs, name) <==> c in cs && Matches(c, name)
  {
    if cs != [] {
      NamedMembers(cs[1..], name);
      assert cs == [cs[0]] + cs[1..];
    }
  }

  /** The containers that do not match `name`, in list order. */
  function Without(cs: seq<Container>, name: string): (r: seq<Container>)
    ensures |r| <= |cs|
  {
    if cs == [] then []
    else (if Matches(cs[0], name) then [] else [cs[0]]) + Without(cs[1..], name)
  }

  /** What is kept is exactly the listed containers that do not match. */
  lemma {:induction false} WithoutMembers(cs: seq<Container>, name: string)
    ensures forall c :: c in Without(cs, name) <==> c in cs && !Matches(c, name)
  {
    if cs != [] {
      WithoutMembers(cs[1..], name);
      assert cs == [cs[0]] + cs[1..];
    }
  }

  lemma {:induction false} WithoutAppend(a: seq<Container>, b: seq<Container>, name: string)
    ensures Without(a + b, name) == Without(a, name) + Without(b, name)
  {
    if a == [] {
      assert a + b == b;
    } else {
      assert (a + b)[1..] == a[1..] + b;
      WithoutAppend(a[1..], b, name);
    }
  }

  lemma {:induction false} NamedAppend(a: seq<Container>, b: seq<Container>, name: string)
    ensures Named(a + b, name) == Named(a, name) + Named(b, name)
  {
    if a == [] {
      assert a + b == b;
    } else {
      var head := if Matches(a[0], name) then [a[0]] else [];
      assert (a + b)[0] == a[0] && (a + b)[1..] == a[1..] + b;
      assert Named(a + b, name) == head + Named(a[1..] + b, name);
      NamedAppend(a[1..], b, name);
      assert head + (Named(a[1..], name) + Named(b, name)) == (head + Named(a[1..], name)) + Named(b, name);
    }
  }

  lemma {:induction false} WithoutIdempotent(cs: seq<Container>, name: string)
    ensures Without(Without(cs, name), name) == Without(cs, name)
  {
    if cs != [] {
      WithoutIdempotent(cs[1..], name);
      var head := if Matches(cs[0], name) then [] else [cs[0]];
      WithoutAppend(head, Without(cs[1..], name), name);
    }
  }

  /** Removing the matches of `name` leaves none: this is what makes the
      subsequent create free of a name conflict. */
  lemma {:induction false} WithoutHasNoneNamed(cs: seq<Container>, name: string)
    ensures Named(Without(cs, name), name) == []
  {
    if cs != [] {
      WithoutHasNoneNamed(cs[1..], name);
      var head := if Matches(cs[0], name) then [] else [cs[0]];
      NamedAppend(head, Without(cs[1..], name), name);
    }
  }

  /** The container removed by `remove` with this id, if listed. */
  function RemoveId(cs: seq<Container>, id: nat): (r: seq<Container>)
    ensures forall c :: c in r <==> c in cs && c.id != id
  {
    if cs == [] then []
    else (if cs[0].id == id then [] else [cs[0]]) + RemoveId(cs[1..], id)
  }

  lemma {:induction false} RemoveIdAppend(a: seq<Container>, b: seq<Container>, id: nat)
    ensures RemoveId(a + b, id) == RemoveId(a, id) + RemoveId(b, id)
  {
    if a == [] {
      assert a + b == b;
    } else {
      assert (a + b)[1..] == a[1..] + b;
      RemoveIdAppend(a[1..], b, id);
    }
  }

  lemma {:induction false} RemoveIdAbsent(cs: seq<Container>, id: nat)
    requires forall c :: c in cs ==> c.id != id
    ensures RemoveId(cs, id) == cs
  {
    if cs != [] {
      RemoveIdAbsent(cs[1..], id);
      assert cs == [cs[0]] + cs[1..];
    }
  }

  /** Removing the id of the first container, held by no other, drops just it. */
  lemma RemoveIdHead(x: Container, rest: seq<Container>)
    requires forall c :: c in rest ==> c.id != x.id
    ensures RemoveId([x] + rest, x.id) == rest
  {
    RemoveIdAppend([x], rest, x.id);
    RemoveIdAbsent(rest, x.id);
  }

  /** Removing an id that a prefix does not hold leaves the prefix alone. */
  lemma RemoveIdPastPrefix(prefix: seq<Container>, rest: seq<Container>, id: nat)
    requires forall c :: c in prefix ==> c.id != id
    ensures RemoveId(prefix + rest, id) == prefix + RemoveId(rest, id)
  {
    RemoveIdAppend(prefix, rest, id);
    RemoveIdAbsent(prefix, id);
  }

  /** Two containers the runtime can hold side by side: different ids and no
      name in common. */
  predicate Compatible(a: Container, b: Container) {
    a.id != b.id && forall n :: n in a.names ==> n !in b.names
  }

  /** The runtime's own guarantee about its container list: ids are unique and
      no name is held by two containers. */
  predicate WellFormed(cs: seq<Container>) {
    forall i, j :: 0 <= i < j < |cs| ==> Compatible(cs[i], cs[j])
  }

  /** Because names are unique, at most one container matches any name. */
  lemma {:induction false} AtMostOneNamed(cs: seq<Container>, name: string)
    requires WellFormed(cs)
    ensures |Named(cs, name)| <= 1
  {
    if cs != [] {
      AtMostOneNamed(cs[1..], name);
      if Matches(cs[0], name) {
        forall c | c in cs[1..]
          ensures !Matches(c, name)
        {
          var j :| 0 <= j < |cs[1..]| && cs[1..][j] == c;
          assert Compatible(cs[0], cs[j + 1]);
        }
        NoneNamed(cs[1..], name);
      }
    }
  }

  lemma {:induction false} NoneNamed(cs: seq<Container>, name: string)
    requires forall c :: c in cs ==> !Matches(c, name)
    ensures Named(cs, name) == []
  {
    if cs != [] {
      NoneNamed(cs[1..], name);
    }
  }

  /** Removing entries keeps the list well formed. */
  lemma {:induction false} RemoveIdWellFormed(cs: seq<Container>, id: nat)
    requires WellFormed(cs)
    ensures WellFormed(RemoveId(cs, id))
  {
    if cs != [] {
      RemoveIdWellFormed(cs[1..], id);
      var rest := RemoveId(cs[1..], id);
      if cs[0].id != id {
        forall j | 0 <= j < |rest|
          ensures Compatible(cs[0], rest[j])
        {
          assert rest[j] in cs[1..];
          var k :| 0 <= k < |cs[1..]| && cs[1..][k] == rest[j];
          assert Compatible(cs[0], cs[k + 1]);
        }
        assert RemoveId(cs, id) == [cs[0]] + rest;
      }
    }
  }

  /** Appending a container compatible with every listed one keeps the list
      well formed. */
  lemma AppendWellFormed(cs: seq<Container>, c: Container)
    requires WellFormed(cs)
    requires forall d :: d in cs ==> Compatible(d, c)
    ensures WellFormed(cs + [c])
  {
    forall i, j | 0 <= i < j < |cs + [c]|
      ensures Compatible((cs + [c])[i], (cs + [c])[j])
    {
      assert (cs + [c])[i] == cs[i];
      if j < |cs| {
        assert (cs + [c])[j] == cs[j];
      } else {
        assert cs[i] in cs;
      }
    }
  }

  /** Some listed container has this id. */
  predicate HasId(cs: seq<Container>, id: nat) {
    exists c :: c in cs && c.id == id
  }

  /** The daemon's state. `nextId` stands for the fresh identifier the runtime
      assigns on create. */
  class Runtime {
    var containers: seq<Container>
    var running: set<nat>
    var nextId: nat

    ghost predicate Valid()
      reads this
    {
      && WellFormed(containers)
      && (forall c :: c in containers ==> c.id < nextId)
      && (forall id :: id in running ==> id < nextId)
    }

    constructor (initial: seq<Container>, next: nat)
      requires WellFormed(initial) && forall c :: c in initial ==> c.id < next
      ensures Valid() && containers == initial && running == {} && nextId == next
    {
      containers, running, nextId := initial, {}, next;
    }

    /** `docker.listContainers({all: true})`. */
    method ListAll() returns (ok: bool, listed: seq<Container>)
      ensures ok ==> listed == containers
    {
      ok := *;
      listed := if ok then containers else [];
    }

    /** `docker.getContainer(id).remove({force: true})`: stops the container if
        needed and deletes it. */
    method Remove(id: nat) returns (ok: bool)
      requires Valid()
      modifies this
      ensures Valid() && nextId == old(nextId)
      ensures !HasId(old(containers), id) ==> !ok
      ensures ok ==> containers == RemoveId(old(containers), id) && running == old(running) - {id}
      ensures !ok ==> containers == old(containers) && running == old(running)
    {
      ok := *;
      ok := ok && HasId(containers, id);
      if ok {
        RemoveIdWellFormed(containers, id);
        containers, running := RemoveId(containers, id), running - {id};
      }
    }

    /** `docker.createContainer({name, Image, HostConfig: {PortBindings}, Env})`:
        a new, stopped container listed under "/" + name. The runtime refuses a
        name that is already in use. */
    method Create(name: string, image: string, ports: seq<PortBinding>, env: seq<string>)
      returns (ok: bool, id: nat)
      requires Valid()
      modifies this
      ensures Valid() && running == old(running)
      ensures ok ==> id !in running
      ensures Named(old(containers), name) != [] ==> !ok
      ensures ok ==>
                id == old(nextId) && nextId == old(nextId) + 1 &&
                containers == old(containers) + [Container(id, ["/" + name], image, ports, env)]
      ensures !ok ==> containers == old(containers) && nextId == old(nextId)
    {
      ok := *;
      id := nextId;
      if Named(containers, name) != [] {
        ok := false;
      }
      if ok {
        NamedMembers(containers, name);
        var c := Container(id, ["/" + name], image, ports, env);
        forall d | d in containers
          ensures Compatible(d, c)
        {
          assert !Matches(d, name);
        }
        AppendWellFormed(containers, c);
        containers, nextId := containers + [c], nextId + 1;
      }
    }

    /** `container.start()`. */
    method Start(id: nat) returns (ok: bool)
      requires Valid()
      modifies this
      ensures Valid()
      ensures containers == old(containers) && nextId == old(nextId)
      ensures !HasId(containers, id) ==> !ok
      ensures running == if ok then old(running) + {id} else old(running)
    {
      ok := *;
      ok := ok && HasId(containers, id);
      if ok {
        running := running + {id};
      }
    }
  }
}
