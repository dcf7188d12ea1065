// Which change sets a receiver takes, and what it becomes.
module ReceiverStore {
  import opened DataState
  import opened ReceiverSpec

  datatype Verdict = Accepted | OutOfOrder | GapDetected

  datatype Receiver = Receiver(model: Model, index: nat)

  // A zero previous index comes from a controller that does not chain its
  // change sets, or from the first change set ever; neither is checked.
  function Judge(index: nat, cs: ChangeSet): Verdict {
    if cs.isSynthetic then Accepted
    else if index > 0 && index >= cs.index then OutOfOrder
    else if cs.previousIndex > 0 && index > 0 && cs.previousIndex != index then GapDetected
    else Accepted
  }

  function NextIndex(index: nat, cs: ChangeSet): nat {
    if Judge(index, cs).Accepted? && !cs.isSynthetic then cs.index else index
  }

  ghost function Receive(r: Receiver, cs: ChangeSet): Receiver {
    Receiver(if Judge(r.index, cs).Accepted? then HandleAll(r.model, cs.index, cs.changes) else r.model, NextIndex(r.index, cs))
  }

  ghost function ReceiveAll(r: Receiver, offered: seq<ChangeSet>): Receiver {
    if offered == [] then r else Receive(ReceiveAll(r, offered[..|offered| - 1]), offered[|offered| - 1])
  }

  // Where a receiver stands after being offered change sets depends only on
  // where it stood before.
  function Standing(index: nat, offered: seq<ChangeSet>): nat {
    if offered == [] then index else NextIndex(Standing(index, offered[..|offered| - 1]), offered[|offered| - 1])
  }

  lemma {:induction false} ReceiveStands(r: Receiver, offered: seq<ChangeSet>)
    ensures ReceiveAll(r, offered).index == Standing(r.index, offered)
  {
    if offered != [] {
      ReceiveStands(r, offered[..|offered| - 1]);
    }
  }

  // Change sets that do not name the one before, from a controller that does
  // not chain them, are taken whenever they are beyond the receiver's index:
  // it ends at the largest index it was offered.
  lemma {:induction false} UnchainedReachLargest(index: nat, offered: seq<ChangeSet>)
    requires index > 0 && forall k :: 0 <= k < |offered| ==> !offered[k].isSynthetic && offered[k].previousIndex == 0
    ensures var end := Standing(index, offered);
            && end >= index && (forall k :: 0 <= k < |offered| ==> offered[k].index <= end)
            && (end == index || exists k :: 0 <= k < |offered| && offered[k].index == end)
  {
    if offered != [] {
      var init, last := offered[..|offered| - 1], offered[|offered| - 1];
      UnchainedReachLargest(index, init);
      var was := Standing(index, init);
      if last.index > was {
        assert offered[|offered| - 1].index == Standing(index, offered);
      } else if was != index {
        var k :| 0 <= k < |init| && init[k].index == was;
        assert offered[k] == init[k];
      }
    }
  }
}
