/** Channels, and the epoll poller that keeps the kernel's interest list in step with them. */
module Pollers {

  /** The poll bits a channel subscribes to: POLLIN, POLLPRI and POLLOUT. */
  datatype Event = In | Pri | Out

  const READ_EVENTS: set<Event> := {In, Pri}

  /** NEW_POLLER, ADDED_POLLER and DELETED_POLLER. */
  datatype Status = New | Added | Deleted

  datatype CtlOp = CtlAdd | CtlMod | CtlDel

  /** One call a channel's owner can make. */
  datatype ChannelOp = EnableReading | DisableReading | EnableWriting | DisableWriting | DisableAll | Remove

  /** The event mask an operation leaves. */
  function MaskAfter(events: set<Event>, op: ChannelOp): set<Event> {
    match op
    case EnableReading => events + READ_EVENTS
    case DisableReading => events - READ_EVENTS
    case EnableWriting => events + {Out}
    case DisableWriting => events - {Out}
    case DisableAll => {}
    case Remove => events
  }

  /** WHICH BITS end up on and off: reading is POLLIN and POLLPRI, writing is POLLOUT, and each operation leaves
      the other bits as they are. */
  lemma MaskBits(events: set<Event>, e: Event)
    ensures e in MaskAfter(events, EnableReading) <==> e in events || e == In || e == Pri
    ensures e in MaskAfter(events, DisableReading) <==> e in events && e != In && e != Pri
    ensures e in MaskAfter(events, EnableWriting) <==> e in events || e == Out
    ensures e in MaskAfter(events, DisableWriting) <==> e in events && e != Out
    ensures e !in MaskAfter(events, DisableAll)
    ensures e in MaskAfter(events, Remove) <==> e in events
  {
  }

  class Channel {
    const fd: int
    var events: set<Event>
    var status: Status

    constructor (fd: int)
      ensures this.fd == fd && events == {} && status == New
    {
      this.fd := fd;
      events := {};
      status := New;
    }

    predicate IsNoneEvent()
      reads this`events
    {
      events == {}
    }

    predicate IsWriting()
      reads this`events
    {
      Out in events
    }

    /** `enable*`, `disable*` and `disableAll`: change the mask, then `update()`. Emptying the mask
        of an added channel deregisters the fd; in every other case the fd ends up registered, also
        when an unregistered channel is given an empty mask. */
    method SetEvents(poller: EPollPoller, mask: set<Event>)
      requires poller.Valid() && this in poller.world
      modifies this, poller`channels, poller`kernel
      ensures poller.Valid() && events == mask
      ensures status == if old(status) == Added && mask == {} then Deleted else Added
      ensures poller.kernel == if status == Deleted then old(poller.kernel) - {fd} else old(poller.kernel)[fd := mask]
      ensures poller.channels == old(poller.channels)[fd := this]
    {
      events := mask;
      poller.UpdateChannel(this);
    }

    method RemoveFrom(poller: EPollPoller)
      requires poller.Valid() && this in poller.world
      modifies this`status, poller`channels, poller`kernel
      ensures poller.Valid() && status == New
      ensures poller.kernel == old(poller.kernel) - {fd}
      ensures poller.channels == old(poller.channels) - {fd}
    {
      poller.RemoveChannel(this);
    }

    method Apply(poller: EPollPoller, op: ChannelOp)
      requires poller.Valid() && this in poller.world
      modifies this, poller`channels, poller`kernel
      ensures poller.Valid()
      ensures events == MaskAfter(old(events), op)
      ensures fd in poller.kernel <==> op != Remove && !(old(status) == Added && events == {})
      ensures forall other :: other != fd ==>
                (other in poller.kernel <==> other in old(poller.kernel))
                && (other in poller.kernel ==> poller.kernel[other] == old(poller.kernel)[other])
    {
      if op == Remove {
        RemoveFrom(poller);
      } else {
        SetEvents(poller, MaskAfter(events, op));
      }
    }
  }

  class EPollPoller {
    var channels: map<int, Channel>
    /** The kernel's interest list: fd to mask. */
    ghost var kernel: map<int, set<Event>>
    /** The channels of the loop this poller belongs to. */
    ghost var world: set<Channel>

    constructor ()
      ensures Valid() && world == {} && kernel == map[] && channels == map[]
    {
      channels := map[];
      kernel := map[];
      world := {};
    }

    /** `channels_` holds exactly the added and the deleted channels; an added one is in the kernel,
        a channel that is not added is not. */
    ghost predicate Registered(c: Channel)
      reads this, c
    {
      && (c.status == New <==> c.fd !in channels)
      && (c.status != New ==> c.fd in channels && channels[c.fd] == c)
      && (c.status == Added <==> c.fd in kernel)
    }

    /** INTEREST-SET AGREEMENT. */
    ghost predicate Agrees(c: Channel)
      reads this, c
    {
      Registered(c) && (c.status == Added ==> kernel[c.fd] == c.events)
    }

    ghost predicate OnlyKnown()
      reads this, world
    {
      && (forall c, d :: c in world && d in world && c != d ==> c.fd != d.fd)
      && (forall fd :: fd in channels ==> exists c :: c in world && c.fd == fd)
      && (forall fd :: fd in kernel ==> exists c :: c in world && c.fd == fd)
    }

    ghost predicate Valid()
      reads this, world
    {
      OnlyKnown() && forall c :: c in world ==> Agrees(c)
    }

    /** A new channel of this loop, on a descriptor no other channel has. */
    ghost method Adopt(c: Channel)
      requires Valid() && c.status == New
      requires forall d :: d in world ==> d.fd != c.fd
      modifies this`world
      ensures Valid() && world == old(world) + {c}
    {
      assert c.fd !in channels && c.fd !in kernel;
      world := world + {c};
      assert forall d :: d in old(world) ==> d in world;
    }

    /** `epoll_ctl`. The preconditions are the kernel's: ADD needs an absent descriptor, MOD and DEL a
        present one. Every call in this file meets them, so no call ever fails for that reason. */
    ghost method EpollCtl(op: CtlOp, fd: int, mask: set<Event>)
      requires op == CtlAdd <==> fd !in kernel
      modifies this`kernel
      ensures kernel == if op == CtlDel then old(kernel) - {fd} else old(kernel)[fd := mask]
    {
      kernel := if op == CtlDel then kernel - {fd} else kernel[fd := mask];
    }

    /** Called after the channel changed its mask: the kernel may hold the previous one. */
    method UpdateChannel(c: Channel)
      requires OnlyKnown() && c in world && Registered(c)
      requires forall d :: d in world && d != c ==> Agrees(d)
      modifies c`status, this`channels, this`kernel
      ensures Valid()
      ensures c.status == if old(c.status) == Added && c.events == {} then Deleted else Added
      ensures kernel == if c.status == Deleted then old(kernel) - {c.fd} else old(kernel)[c.fd := c.events]
      ensures channels == old(channels)[c.fd := c]
    {
      if c.status == New || c.status == Deleted {
        if c.status == New {
          channels := channels[c.fd := c];
        }
        c.status := Added;
        EpollCtl(CtlAdd, c.fd, c.events);
      } else {
        if c.IsNoneEvent() {
          EpollCtl(CtlDel, c.fd, c.events);
          c.status := Deleted;
        } else {
          EpollCtl(CtlMod, c.fd, c.events);
        }
      }
    }

    method RemoveChannel(c: Channel)
      requires Valid() && c in world
      modifies c`status, this`channels, this`kernel
      ensures Valid() && c.status == New
      ensures kernel == old(kernel) - {c.fd}
      ensures channels == old(channels) - {c.fd}
    {
      channels := channels - {c.fd};
      if c.status == Added {
        EpollCtl(CtlDel, c.fd, c.events);
      }
      c.status := New;
    }
  }

  /** The mask a channel has after its share of the operations, whoever interleaved with it. */
  function MaskOf(events: set<Event>, cs: seq<int>, ops: seq<ChannelOp>, fd: int): set<Event>
    requires |cs| == |ops|
  {
    if ops == [] then events
    else
      var n := |ops| - 1;
      var before := MaskOf(events, cs[..n], ops[..n], fd);
      if cs[n] == fd then MaskAfter(before, ops[n]) else before
  }

  /** Any interleaving of operations on any set of channels: agreement holds at the end, no
      `epoll_ctl` on the way was illegal, and each mask depends only on the channel's own operations. */
  method Interleave(poller: EPollPoller, who: seq<Channel>, ops: seq<ChannelOp>)
    requires poller.Valid() && |who| == |ops|
    requires forall i :: 0 <= i < |who| ==> who[i] in poller.world
    modifies poller`channels, poller`kernel, poller.world
    ensures poller.Valid()
    ensures forall c :: c in poller.world ==> c.events == MaskOf(old(c.events), Fds(who), ops, c.fd)
    ensures forall c :: c in poller.world && c.status == Added ==>
              c.fd in poller.kernel && poller.kernel[c.fd] == MaskOf(old(c.events), Fds(who), ops, c.fd)
  {
    ghost var fds := Fds(who);
    for i := 0 to |ops|
      invariant poller.Valid()
      invariant forall c :: c in poller.world ==> c.events == MaskOf(old(c.events), fds[..i], ops[..i], c.fd)
    {
      who[i].Apply(poller, ops[i]);
      assert fds[..i + 1][..i] == fds[..i] && ops[..i + 1][..i] == ops[..i];
    }
    assert fds[..|ops|] == fds && ops[..|ops|] == ops;
  }

  /** The same from a new poller and new channels on distinct descriptors. */
  method InterleaveFromNew(fds: seq<int>, who: seq<nat>, ops: seq<ChannelOp>)
    returns (poller: EPollPoller, channels: seq<Channel>)
    requires forall i, j :: 0 <= i < j < |fds| ==> fds[i] != fds[j]
    requires |who| == |ops| && forall i :: 0 <= i < |who| ==> who[i] < |fds|
    ensures fresh(poller) && poller.Valid() && |channels| == |fds|
    ensures forall i :: 0 <= i < |fds| ==> channels[i] in poller.world && channels[i].fd == fds[i]
    ensures forall i :: 0 <= i < |fds| ==>
              channels[i].events == MaskOf({}, seq(|who|, k requires 0 <= k < |who| => fds[who[k]]), ops, fds[i])
  {
    poller := new EPollPoller();
    channels := [];
    for i := 0 to |fds|
      invariant fresh(poller) && poller.Valid() && fresh(poller.world)
      invariant |channels| == i && (forall c :: c in poller.world <==> c in channels)
      invariant forall k :: 0 <= k < i ==> channels[k].fd == fds[k] && channels[k].events == {}
    {
      var c := new Channel(fds[i]);
      poller.Adopt(c);
      channels := channels + [c];
    }
    var callers := seq(|who|, k requires 0 <= k < |who| => channels[who[k]]);
    Interleave(poller, callers, ops);
    assert Fds(callers) == seq(|who|, k requires 0 <= k < |who| => fds[who[k]]);
  }

  ghost function Fds(who: seq<Channel>): (fds: seq<int>)
    ensures |fds| == |who|
    ensures forall i :: 0 <= i < |who| ==> fds[i] == who[i].fd
  {
    seq(|who|, i requires 0 <= i < |who| => who[i].fd)
  }
}
