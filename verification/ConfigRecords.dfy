/**
 The config tree as the service holds it while it edits: nested records that are changed in place. Setting and deleting
 a path here do to the records what the edits of the tree do to its value, and touch no other record.
 */
module ConfigRecords {
  import opened ConfigTree

  datatype Node = Leaf(value: Yaml) | Sub(record: PlainRecord)

  class PlainRecord {
    var fields: map<string, Node>
    /** This record and every record below it. */
    ghost var repr: set<object>

    /** Records form a tree: no record is reached in two ways, and none contains itself. */
    ghost predicate Valid()
      reads this, repr
      ensures Valid() ==> this in repr
      decreases repr, 1
    {
      && this in repr
      && (forall k :: k in fields ==> Fits(fields[k], repr))
      && (forall j, k :: j in fields && k in fields && j != k ==> NodesApart(fields[j], fields[k]))
    }

    ghost predicate Fits(n: Node, all: set<object>)
      requires this in all
      reads all
      decreases all, 0
    {
      if n.Leaf? then !n.value.Rec?
      else n.record in all && n.record.repr <= all && this !in n.record.repr && n.record.Valid()
    }

    /** The tree these records stand for. */
    ghost function View(): Fields
      requires Valid()
      reads this, repr
      decreases repr, 1
    {
      map k | k in fields && Fits(fields[k], repr) :: NodeView(fields[k])
    }

    constructor ()
      ensures Valid() && fresh(repr) && View() == map[] && fields == map[]
    {
      fields := map[];
      repr := {this};
    }

    /** Hangs a record below a key; it must share nothing with the records below the other keys. */
    method Adopt(key: string, child: PlainRecord)
      requires child.Valid() && this !in child.repr && this in repr
      requires forall k :: k in fields && k != key ==> Fits(fields[k], repr) && NodesApart(fields[k], Sub(child))
      requires forall j, k :: j in fields && k in fields && j != k && j != key && k != key ==>
                 NodesApart(fields[j], fields[k])
      modifies this
      ensures Valid() && repr == old(repr) + child.repr && fields == old(fields)[key := Sub(child)]
      ensures View().Keys == fields.Keys && View()[key] == Rec(child.View())
      ensures forall k :: k in old(fields) && k != key && old(Fits(fields[k], repr)) ==>
                View()[k] == old(NodeView(fields[k]))
    {
      fields := fields[key := Sub(child)];
      repr := repr + child.repr;
    }

    /** Whatever is in the way of a path is replaced by an empty record. */
    method AddBelow(key: string)
      requires Valid() && !(key in fields && fields[key].Sub?)
      modifies this
      ensures Valid() && fresh(repr - old(repr)) && old(repr) <= repr
      ensures key in fields && fields[key].Sub?
      ensures View() == old(View())[key := Rec(map[])]
    {
      var empty := new PlainRecord();
      assert forall k :: k in fields ==> Fits(fields[k], repr);
      assert empty.repr !! repr;
      ghost var before := View();
      Adopt(key, empty);
      OneMore(before, View(), key, Rec(map[]));
    }

    /** The step down: only the record below the key changes, and what is in it. */
    method SetBelow(path: Path, value: Yaml)
      requires Valid() && !value.Rec? && |path| > 1 && path[0] in fields && fields[path[0]].Sub?
      modifies repr
      ensures Valid() && fresh(repr - old(repr)) && old(repr) <= repr
      ensures View() == ConfigTree.SetPath(old(View()), path, value)
      decreases |path|, 0
    {
      var next := fields[path[0]].record;
      assert Fits(fields[path[0]], repr);
      next.SetPath(path[1..], value);
      OthersKept(this, path[0]);
      Adopt(path[0], next);
      assert View() == old(View())[path[0] := Rec(next.View())];
    }

    /** The last step: a value under a key of this record. */
    method SetHere(key: string, value: Yaml)
      requires Valid() && !value.Rec?
      modifies this
      ensures Valid() && repr == old(repr) && View() == old(View())[key := value]
    {
      fields := fields[key := Leaf(value)];
    }

    /** `setPath`, from this record on. */
    method SetPath(path: Path, value: Yaml)
      requires Valid() && !value.Rec?
      modifies repr
      ensures Valid() && fresh(repr - old(repr)) && old(repr) <= repr
      ensures View() == ConfigTree.SetPath(old(View()), path, value)
      decreases |path|, 1
    {
      var key := path[0];
      if |path| == 1 {
        SetHere(key, value);
      } else {
        if key !in fields || !fields[key].Sub? { AddBelow(key); }
        SetBelow(path, value);
      }
    }

    /** `deletePath`, from this record on. */
    method DeletePath(path: Path)
      requires Valid()
      modifies repr
      ensures Valid() && repr == old(repr)
      ensures View() == ConfigTree.DeletePath(old(View()), path)
      decreases |path|
    {
      var key := path[0];
      if |path| == 1 {
        fields := fields - {key};
      } else if key in fields && fields[key].Sub? {
        assert Fits(fields[key], repr);
        fields[key].record.DeletePath(path[1..]);
        OthersKept(this, key);
      }
    }
  }

  lemma OneMore(before: Fields, after: Fields, key: string, value: Yaml)
    requires after.Keys == before.Keys + {key} && after[key] == value
    requires forall k :: k in before && k != key ==> after[k] == before[k]
    ensures after == before[key := value]
  {
  }

  /** After a change below one key: the records below the other keys are as they were, and still apart from it. */
  twostate lemma OthersKept(r: PlainRecord, new key: string)
    requires old(r.Valid()) && key in r.fields && r.fields[key].Sub?
    requires r.fields == old(r.fields) && r.repr == old(r.repr)
    requires r.fields[key].record.Valid()
    requires fresh(r.fields[key].record.repr - old(r.fields[key].record.repr))
    requires unchanged(old(r.repr) - old(r.fields[key].record.repr))
    ensures r !in r.fields[key].record.repr
    ensures forall k :: k in r.fields && k != key ==>
              && old(r.Fits(r.fields[k], r.repr)) && r.Fits(r.fields[k], r.repr)
              && NodeView(r.fields[k]) == old(NodeView(r.fields[k]))
              && NodesApart(r.fields[k], r.fields[key])
    ensures forall j, k :: j in r.fields && k in r.fields && j != k && j != key && k != key ==>
              NodesApart(r.fields[j], r.fields[k])
  {
    var child := r.fields[key].record;
    assert old(r.Fits(r.fields[key], r.repr));
    forall k | k in r.fields && k != key
      ensures old(r.Fits(r.fields[k], r.repr)) && r.Fits(r.fields[k], r.repr)
      ensures NodeView(r.fields[k]) == old(NodeView(r.fields[k]))
      ensures NodesApart(r.fields[k], r.fields[key])
      ensures r.fields[k].Sub? ==> r.fields[k].record.repr == old(r.fields[k].record.repr)
    {
      assert old(r.Fits(r.fields[k], r.repr)) && old(NodesApart(r.fields[k], r.fields[key]));
    }
    forall j, k | j in r.fields && k in r.fields && j != k && j != key && k != key
      ensures NodesApart(r.fields[j], r.fields[k])
    {
      assert old(NodesApart(r.fields[j], r.fields[k]));
    }
  }

  ghost predicate NodesApart(a: Node, b: Node)
    reads if a.Sub? then {a.record} else {}, if b.Sub? then {b.record} else {}
  {
    a.Sub? && b.Sub? ==> a.record.repr !! b.record.repr
  }

  ghost function NodeView(n: Node): Yaml
    requires n.Sub? ==> n.record.Valid()
    reads if n.Sub? then {n.record} + n.record.repr else {}
    decreases if n.Sub? then n.record.repr else {}, 2
  {
    match n
    case Leaf(value) => value
    case Sub(record) => Rec(record.View())
  }

  /** The whole sequence of managed edits, one after the other, on the records of a config. */
  method ApplyEdits(root: PlainRecord, edits: seq<Edit>)
    requires root.Valid() && forall i :: 0 <= i < |edits| && edits[i].Set? ==> !edits[i].value.Rec?
    modifies root.repr
    ensures root.Valid() && root.View() == ApplyAll(old(root.View()), edits)
  {
    for i := 0 to |edits|
      invariant root.Valid() && fresh(root.repr - old(root.repr))
      invariant root.View() == ApplyAll(old(root.View()), edits[..i])
    {
      assert edits[..i + 1][..i] == edits[..i];
      match edits[i] {
        case Set(path, value) => root.SetPath(path, value);
        case Delete(path) => root.DeletePath(path);
      }
    }
    assert edits[..|edits|] == edits;
  }
}
