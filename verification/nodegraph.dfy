/**
 * The virtual file system primitives the socket directories are built on: a
 * directory that is the root of its own device, whose device hands out inode
 * numbers in increasing order, that holds named nodes, and that may mint a
 * node for any name it does not hold. These primitives belong to the
 * wasmtime VFS crates; their behaviour here is an assumption of the model.
 */
module NodeGraph {
  import opened Wrappers

  /** A node held by a directory: its inode number on the device, and its payload. */
  datatype Entry<N> = Entry(ino: nat, node: N)

  class Directory<N> {
    /** The next inode number the device hands out; the directory itself has number 0. */
    var next: nat
    /** The attached nodes, by name. */
    var entries: map<string, Entry<N>>
    /** The node minted for names that are not attached, if any. */
    const factory: Option<N>

    /** Inode numbers of attached nodes are distinct, and below the device counter. */
    ghost predicate Valid()
      reads this
    {
      && next >= 1
      && (forall name :: name in entries ==> 1 <= entries[name].ino < next)
      && (forall m, n :: m in entries && n in entries && m != n ==> entries[m].ino != entries[n].ino)
    }

    /** A fresh device with an empty root directory. */
    constructor (factory: Option<N>)
      ensures Valid()
      ensures this.factory == factory && entries == map[] && next == 1
    {
      this.factory := factory;
      entries := map[];
      next := 1;
    }

    /** The device hands out its next inode number. */
    method CreateInode() returns (ino: nat)
      modifies this
      ensures ino == old(next) && next == old(next) + 1
      ensures entries == old(entries)
    {
      ino := next;
      next := next + 1;
    }

    /** Attaching a node under a name; a name that is taken is refused. */
    method Attach(name: string, e: Entry<N>) returns (ok: bool)
      modifies this
      ensures ok <==> name !in old(entries)
      ensures ok ==> entries == old(entries)[name := e]
      ensures !ok ==> entries == old(entries)
      ensures next == old(next)
    {
      if name in entries {
        return false;
      }
      entries := entries[name := e];
      return true;
    }

    /**
     * Giving a node the device's next inode number and attaching it under a
     * name. The inode number is used up even when the name is taken.
     */
    method CreateAndAttach(name: string, node: N) returns (ok: bool)
      requires Valid()
      modifies this
      ensures Valid()
      ensures next == old(next) + 1
      ensures ok <==> name !in old(entries)
      ensures ok ==> entries == old(entries)[name := Entry(old(next), node)]
      ensures !ok ==> entries == old(entries)
    {
      var ino := CreateInode();
      ok := Attach(name, Entry(ino, node));
    }

    /**
     * Looking a name up: an attached node, else a node minted by the factory
     * on a fresh inode, else nothing.
     */
    method Lookup(name: string) returns (r: Option<Entry<N>>)
      requires Valid()
      modifies this
      ensures Valid()
      ensures entries == old(entries)
      ensures name in entries ==> r == Some(entries[name]) && next == old(next)
      ensures name !in entries && factory.Some? ==>
        r == Some(Entry(old(next), factory.value)) && next == old(next) + 1
      ensures name !in entries && factory.None? ==> r == None && next == old(next)
    {
      if name in entries {
        return Some(entries[name]);
      }
      if factory.None? {
        return None;
      }
      var ino := CreateInode();
      return Some(Entry(ino, factory.value));
    }
  }

  /** No name occurs twice in a list of named items. */
  predicate DistinctNames<T>(items: seq<(string, T)>) {
    forall i, j :: 0 <= i < j < |items| ==> items[i].0 != items[j].0
  }

  /** The set of names in a list of named items. */
  function Names<T>(items: seq<(string, T)>): (r: set<string>)
    ensures forall i :: 0 <= i < |items| ==> items[i].0 in r
    ensures forall n :: n in r ==> exists i :: 0 <= i < |items| && items[i].0 == n
  {
    set i | 0 <= i < |items| :: items[i].0
  }

  /** The position of the first item with a given name. */
  function IndexOf<T>(items: seq<(string, T)>, name: string): (r: Option<nat>)
    ensures r.None? <==> name !in Names(items)
    ensures r.Some? ==> r.value < |items| && items[r.value].0 == name
    ensures r.Some? ==> forall k :: 0 <= k < r.value ==> items[k].0 != name
  {
    if items == [] then None
    else if items[0].0 == name then Some(0)
    else match IndexOf(items[1..], name)
      case None => None
      case Some(i) => Some(i + 1)
  }

  /** Growing a prefix of named items by one item whose name is new. */
  lemma ExtendNames<T>(items: seq<(string, T)>, i: nat)
    requires i < |items|
    requires DistinctNames(items[..i]) && items[i].0 !in Names(items[..i])
    ensures DistinctNames(items[..i + 1])
    ensures Names(items[..i + 1]) == Names(items[..i]) + {items[i].0}
  {
    assert items[..i + 1] == items[..i] + [items[i]];
  }

  /** An item whose name already occurs in the prefix before it makes the names not distinct. */
  lemma DuplicateName<T>(items: seq<(string, T)>, i: nat)
    requires i < |items| && items[i].0 in Names(items[..i])
    ensures !DistinctNames(items)
  {
    var k :| 0 <= k < i && items[..i][k].0 == items[i].0;
    assert items[k].0 == items[i].0;
  }

  /** The entries that attaching named items in order gives: the k-th item on inode k + 1. */
  function Attached<T, N>(items: seq<(string, T)>, mint: T -> N): map<string, Entry<N>> {
    if items == [] then map[]
    else
      var last := |items| - 1;
      Attached(items[..last], mint)[items[last].0 := Entry(|items|, mint(items[last].1))]
  }

  /**
   * Attaching the next item of a list whose prefix has distinct names: it is
   * refused exactly when its name is taken, which makes the names of the
   * whole list not distinct; otherwise the prefix grows by it.
   */
  lemma AttachNext<T, N>(items: seq<(string, T)>, i: nat, mint: T -> N)
    requires i < |items| && DistinctNames(items[..i])
    ensures Attached(items[..i], mint).Keys == Names(items[..i])
    ensures items[i].0 in Names(items[..i]) ==> !DistinctNames(items)
    ensures items[i].0 !in Names(items[..i]) ==>
      && DistinctNames(items[..i + 1])
      && Attached(items[..i + 1], mint) == Attached(items[..i], mint)[items[i].0 := Entry(i + 1, mint(items[i].1))]
  {
    AttachedKeys(items[..i], mint);
    if items[i].0 in Names(items[..i]) {
      DuplicateName(items, i);
    } else {
      ExtendNames(items, i);
      assert items[..i + 1][..i] == items[..i];
    }
  }

  /** Attaching items in order holds exactly their names. */
  lemma {:induction false} AttachedKeys<T, N>(items: seq<(string, T)>, mint: T -> N)
    ensures Attached(items, mint).Keys == Names(items)
  {
    if items != [] {
      var last := |items| - 1;
      AttachedKeys(items[..last], mint);
      assert items == items[..last] + [items[last]];
      assert Names(items) == Names(items[..last]) + {items[last].0};
    }
  }

  /** With distinct names, every item is attached under its name, on the inode of its position. */
  lemma {:induction false} AttachedEntries<T, N>(items: seq<(string, T)>, mint: T -> N)
    requires DistinctNames(items)
    ensures Attached(items, mint).Keys == Names(items)
    ensures forall i :: 0 <= i < |items| ==> Attached(items, mint)[items[i].0] == Entry(i + 1, mint(items[i].1))
  {
    AttachedKeys(items, mint);
    if items != [] {
      var last := |items| - 1;
      var front := items[..last];
      assert DistinctNames(front);
      AttachedEntries(front, mint);
      var m := Attached(items, mint);
      assert m == Attached(front, mint)[items[last].0 := Entry(|items|, mint(items[last].1))];
      forall i | 0 <= i < last
        ensures m[items[i].0] == Entry(i + 1, mint(items[i].1))
      {
        assert front[i] == items[i];
        assert items[i].0 != items[last].0;
      }
    }
  }
}
