/** Go slices: windows on backing arrays that they may share. */
module Slices {
  datatype Slice<T> = Nil | Slice(a: array<T>, off: nat, len: nat, cap: nat)
  {
    predicate Valid() {
      Slice? ==> len <= cap && off + cap <= a.Length
    }

    function Len(): nat { if Nil? then 0 else len }

    function Repr(): set<object> { if Nil? then {} else {a} }

    function At(i: nat): T
      requires Valid() && i < Len()
      reads Repr()
    {
      a[off + i]
    }

    /** The elements one sees through the slice. */
    function View(): (v: seq<T>)
      requires Valid()
      reads Repr()
      ensures |v| == Len()
      ensures forall i :: 0 <= i < |v| ==> v[i] == At(i)
    {
      if Nil? then [] else a[off..off + len]
    }

    /** No index within one's capacity is within the other's. */
    predicate Apart<U>(other: Slice<U>) {
      Slice? && other.Slice? && (a as object) == other.a ==> off + cap <= other.off || other.off + other.cap <= off
    }
  }

  /** append: in place if the capacity allows, otherwise into a new array with as
      much room to spare as the runtime likes. */
  method Append<T>(s: Slice<T>, xs: seq<T>, room: nat, zero: T) returns (r: Slice<T>)
    requires s.Valid()
    modifies s.Repr()
    ensures r.Valid() && r.View() == old(s.View()) + xs && s.View() == old(s.View())
    ensures s.Slice? && s.len + |xs| <= s.cap ==> r == Slice(s.a, s.off, s.len + |xs|, s.cap)
    ensures xs == [] ==> r == s
    ensures xs != [] && !(s.Slice? && s.len + |xs| <= s.cap) ==> r.Slice? && fresh(r.a)
    ensures s.Slice? ==> forall j :: 0 <= j < s.a.Length && !(s.off + s.len <= j < s.off + s.cap) ==> s.a[j] == old(s.a[j])
  {
    if |xs| == 0 {
      r := s;
    } else if s.Slice? && s.len + |xs| <= s.cap {
      forall i | 0 <= i < |xs| { s.a[s.off + s.len + i] := xs[i]; }
      r := Slice(s.a, s.off, s.len + |xs|, s.cap);
      assert r.View() == old(s.View()) + xs;
    } else {
      var n := s.Len() + |xs|;
      var all := s.View() + xs;
      var a := new T[n + room](i => if 0 <= i < |all| then all[i] else zero);
      r := Slice(a, 0, n, n + room);
      assert r.View() == all;
    }
  }
}

/** hasContainer as the source has it: it appends the init containers to the slice
    of containers just to range over both, and the append may write into the spare
    capacity behind the containers. */
module PodLists {
  import opened Slices
  import opened PodWebhook
  import Cluster

  const ZERO := Container("", [], [], [], Cluster.None, Cluster.None)

  lemma NamedConcat(c: seq<Container>, i: seq<Container>, name: string)
    ensures Named(c + i, name) <==> Named(c, name) || Named(i, name)
  {
    var all := c + i;
    assert forall j :: 0 <= j < |c| ==> all[j] == c[j];
    assert forall j :: 0 <= j < |i| ==> all[|c| + j] == i[j];
    assert forall j :: 0 <= j < |all| ==> all[j] == if j < |c| then c[j] else i[j - |c|];
  }

  /** The loop of hasContainer. */
  method Search(all: Slice<Container>, name: string) returns (found: bool)
    requires all.Valid()
    ensures found <==> Named(all.View(), name)
  {
    for k := 0 to all.Len()
      invariant forall j :: 0 <= j < k ==> all.At(j).name != name
    {
      if all.At(k).name == name {
        assert all.View()[k].name == name;
        return true;
      }
    }
    return false;
  }

  class Lists {
    var containers: Slice<Container>
    var inits: Slice<Container>

    constructor (containers: Slice<Container>, inits: Slice<Container>)
      ensures this.containers == containers && this.inits == inits
    {
      this.containers, this.inits := containers, inits;
    }

    /** A decoded pod has an array for each list. */
    predicate Valid()
      reads this
    {
      containers.Valid() && inits.Valid() && containers.Apart(inits)
    }

    function Repr(): set<object>
      reads this
    {
      containers.Repr() + inits.Repr()
    }

    /** The pod one sees. */
    function Pod(p: PodSpec): PodSpec
      requires Valid()
      reads this, Repr()
    {
      p.(containers := containers.View(), inits := inits.View())
    }

    /** True exactly if either list holds the name, and whatever it wrote, both
        lists show what they showed before. */
    method HasContainer(name: string, room: nat) returns (found: bool)
      requires Valid()
      modifies containers.Repr()
      ensures Valid()
      ensures containers.View() == old(containers.View()) && inits.View() == old(inits.View())
      ensures found <==> Named(old(containers.View()), name) || Named(old(inits.View()), name)
    {
      hide Named;
      NamedConcat(containers.View(), inits.View(), name);
      var all := Joined(room);
      found := Search(all, name);
    }

    method Joined(room: nat) returns (all: Slice<Container>)
      requires Valid()
      modifies containers.Repr()
      ensures containers.View() == old(containers.View()) && inits.View() == old(inits.View())
      ensures all.Valid() && all.View() == old(containers.View()) + old(inits.View())
    {
      all := Append(containers, inits.View(), room, ZERO);
      forall j | 0 <= j < inits.Len() ensures inits.At(j) == old(inits.At(j)) {
        var k := inits.off + j;
        if containers.Slice? && (containers.a as object) == inits.a {
          assert !(containers.off + containers.len <= k < containers.off + containers.cap);
        }
      }
    }

    /** The two appends of injectProxy with the checks before them: over slices the
        lists become what AddProxy and AddInit make of them as values. */
    method Inject(p: PodSpec, plan: Plan, typeName: string, extra: seq<string>, room: nat)
      requires Valid() && plan.Inject? && Pod(p) == p
      modifies this, Repr()
      ensures Valid()
      ensures var q := AddInit(AddProxy(p, plan, typeName, extra), plan, typeName);
        containers.View() == q.containers && inits.View() == q.inits
    {
      var found := HasContainer(PROXY, room);
      if !found {
        AppendProxy(ProxyContainer(p.containers, plan, typeName, extra), room);
      }
      found := HasContainer(INIT, room);
      if !found {
        AppendInit(InitContainer(plan), room);
      }
    }

    method AppendProxy(c: Container, room: nat)
      requires Valid()
      modifies this, containers.Repr()
      ensures Valid() && inits == old(inits)
      ensures containers.View() == old(containers.View()) + [c] && inits.View() == old(inits.View())
      ensures forall o :: o in containers.Repr() ==> o in old(containers.Repr()) || fresh(o)
    {
      containers := Append(containers, [c], room, ZERO);
    }

    method AppendInit(c: Container, room: nat)
      requires Valid()
      modifies this, inits.Repr()
      ensures Valid() && containers == old(containers)
      ensures inits.View() == old(inits.View()) + [c] && containers.View() == old(containers.View())
    {
      inits := Append(inits, [c], room, ZERO);
    }
  }


  /** One array after `n` elements at `q` were appended in place at `p`. */
  function Written<T>(mem: seq<T>, p: nat, q: nat, n: nat): seq<T>
    requires p + n <= |mem| && q + n <= |mem|
  {
    mem[..p] + mem[q..q + n] + mem[p + n..]
  }

  /** Were both lists in one array, the check would leave the init containers at `q`
      alone exactly if nothing but equal elements got written over them. */
  lemma SharedArray<T>(mem: seq<T>, p: nat, q: nat, n: nat)
    requires p + n <= |mem| && q + n <= |mem|
    ensures Written(mem, p, q, n)[q..q + n] == mem[q..q + n] <==>
      forall j :: p <= j < p + n && q <= j < q + n ==> mem[j] == mem[q + (j - p)]
  {
    var w := Written(mem, p, q, n);
    assert forall j :: 0 <= j < |mem| ==> w[j] == if p <= j < p + n then mem[q + (j - p)] else mem[j];
    assert forall j :: q <= j < q + n ==> w[j] == w[q..q + n][j - q] && mem[j] == mem[q..q + n][j - q];
    if w[q..q + n] == mem[q..q + n] {
      forall j | p <= j < p + n && q <= j < q + n ensures mem[j] == mem[q + (j - p)] {
        assert w[j] == mem[j];
      }
    } else {
      var i :| 0 <= i < n && w[q..q + n][i] != mem[q..q + n][i];
      assert w[q + i] != mem[q + i];
    }
  }
}
