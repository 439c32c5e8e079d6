/** The list of call frames, with the free list that frames are taken from and put back to. */
module Frames {

  /** What is known about one activation. */
  datatype Info = Info(notReturned: bool, argList: int, prevFp: int, prevIp: Ip)
  datatype Ip = Null | At(offset: nat)

  class Frame {
    var info: Info
    var next: Frame?

    constructor ()
    {
      info, next := Info(false, 0, 0, Null), null;
    }
  }

  /** The list that starts at `head` holds `nodes`, the last one first. */
  ghost predicate Linked(head: Frame?, nodes: seq<Frame>, repr: set<Frame>)
    reads repr
  {
    && (forall i {:trigger nodes[i]} :: 0 <= i < |nodes| ==> nodes[i] in repr)
    && head == (if nodes == [] then null else nodes[|nodes| - 1])
    && forall i {:trigger nodes[i].next} :: 0 <= i < |nodes| ==> nodes[i].next == if i == 0 then null else nodes[i - 1]
  }

  ghost predicate NoRepeats(nodes: seq<Frame>)
  {
    forall i, j {:trigger nodes[i], nodes[j]} :: 0 <= i < j < |nodes| ==> nodes[i] != nodes[j]
  }

  ghost predicate Latest(nodes: seq<Frame>)
  {
    |nodes| > 0 && forall i {:trigger nodes[i]} :: 0 <= i < |nodes| - 1 ==> nodes[i] != nodes[|nodes| - 1]
  }

  ghost predicate Apart(xs: seq<Frame>, ys: seq<Frame>)
  {
    forall i, j {:trigger xs[i], ys[j]} :: 0 <= i < |xs| && 0 <= j < |ys| ==> xs[i] != ys[j]
  }

  class FrameList {
    var current: Frame?
    var free: Frame?
    ghost var nodes: seq<Frame>       // the frames entered, the current one last
    ghost var spare: seq<Frame>
    ghost var repr: set<Frame>

    ghost predicate Valid()
      reads this, repr
    {
      && Linked(current, nodes, repr) && Linked(free, spare, repr)
      && NoRepeats(nodes) && NoRepeats(spare) && Apart(nodes, spare)
    }

    constructor ()
      ensures Valid() && nodes == [] && repr == {}
    {
      current, free := null, null;
      nodes, spare, repr := [], [], {};
    }

    /** A frame from the free list, or a new one, in front of the others. */
    method Enter()
      requires Valid()
      modifies this, repr
      ensures Valid() && fresh(repr - old(repr))
      ensures current != null && current in repr && nodes == old(nodes) + [current] && Latest(nodes)
      ensures forall i {:trigger nodes[i]} :: 0 <= i < |old(nodes)| ==> nodes[i].info == old(nodes[i].info)
      ensures if old(free) == null then fresh(current) && free == null && spare == old(spare)
              else current == old(free) && spare == old(spare)[..|old(spare)| - 1]
    {
      var f: Frame;
      if free != null {
        f := free;
        free := f.next;
        spare := spare[..|spare| - 1];
      } else {
        f := new Frame();
        repr := repr + {f};
      }
      assert forall i {:trigger nodes[i]} :: 0 <= i < |nodes| ==> nodes[i] != f;
      f.next := current;
      current := f;
      nodes := nodes + [f];
    }

    /** The current frame goes to the free list. */
    method Leave()
      requires Valid() && current != null
      modifies this, repr
      ensures Valid() && repr == old(repr)
      ensures nodes == old(nodes)[..|old(nodes)| - 1] && spare == old(spare) + [old(current)] && free == old(current)
      ensures forall f {:trigger f in repr} :: f in repr ==> f.info == old(f.info)
    {
      var f := current;
      assert f == nodes[|nodes| - 1];
      current := f.next;
      f.next := free;
      free := f;
      nodes := nodes[..|nodes| - 1];
      spare := spare + [f];
    }
  }
}
