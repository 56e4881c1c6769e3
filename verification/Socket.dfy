// The listening socket of run/socket.go: one duplicate descriptor keeps it
// bound while every generation gets, and closes, a listener of its own.

module ListeningSocket {
  import opened Prelude

  // The process's open descriptors, each with the socket it refers to.
  class Kernel {
    var open: map<nat, nat>
    var nextDescriptor: nat
    var nextSocket: nat

    ghost predicate Valid()
      reads this
    {
      && (forall d :: d in open ==> d < nextDescriptor)
      && (forall d :: d in open ==> open[d] < nextSocket)
    }

    constructor ()
      ensures Valid() && open == map[]
    {
      open, nextDescriptor, nextSocket := map[], 0, 0;
    }

    // net.Listen: a new socket.
    method Listen(fails: bool) returns (d: Option<nat>)
      requires Valid()
      modifies this
      ensures Valid()
      ensures d.None? <==> fails
      ensures d.None? ==> open == old(open)
      ensures d.Some? ==> d.value !in old(open) && open == old(open)[d.value := old(nextSocket)]
      ensures d.Some? ==> nextSocket == old(nextSocket) + 1
    {
      if fails { return None; }
      d := Some(nextDescriptor);
      open := open[nextDescriptor := nextSocket];
      nextDescriptor, nextSocket := nextDescriptor + 1, nextSocket + 1;
    }

    // TCPListener.File and net.FileListener: another descriptor of one socket.
    method Duplicate(of: nat, fails: bool) returns (d: Option<nat>)
      requires Valid() && of in open
      modifies this
      ensures Valid() && nextSocket == old(nextSocket)
      ensures d.None? <==> fails
      ensures d.None? ==> open == old(open)
      ensures d.Some? ==> d.value !in old(open) && open == old(open)[d.value := old(open)[of]]
    {
      if fails { return None; }
      d := Some(nextDescriptor);
      open := open[nextDescriptor := open[of]];
      nextDescriptor := nextDescriptor + 1;
    }

    method CloseDescriptor(d: nat)
      requires Valid()
      modifies this
      ensures Valid() && open == old(open) - {d} && nextSocket == old(nextSocket)
    {
      open := open - {d};
    }
  }

  class BoundSocket {
    const kernel: Kernel
    var file: Option<nat>
    var listener: Option<nat>
    // The socket bound at first.
    ghost const socket: nat

    // What boundSocket holds is open and is the socket bound at first. It never
    // holds both descriptors.
    ghost predicate Valid()
      reads this, kernel
    {
      && kernel.Valid()
      && (file.Some? ==> listener.None? && file.value in kernel.open && kernel.open[file.value] == socket)
      && (listener.Some? ==> listener.value in kernel.open && kernel.open[listener.value] == socket)
    }

    constructor Holding(kernel: Kernel, file: Option<nat>, listener: Option<nat>, ghost socket: nat)
      ensures this.kernel == kernel && this.file == file && this.listener == listener && this.socket == socket
    {
      this.kernel, this.file, this.listener, this.socket := kernel, file, listener, socket;
    }

    // listenOn. tcp says whether the listener is a TCP listener.
    static method ListenOn(kernel: Kernel, listenFails: bool, tcp: bool, duplicateFails: bool)
      returns (s: Option<BoundSocket>)
      requires kernel.Valid()
      modifies kernel
      ensures s.None? <==> listenFails
      ensures s.None? ==> kernel.Valid() && kernel.open == old(kernel.open)
      ensures s.Some? ==>
        && fresh(s.value) && s.value.kernel == kernel && s.value.Valid()
        && (s.value.file.Some? <==> tcp && !duplicateFails)
        && (s.value.listener.Some? <==> s.value.file.None?)
      ensures s.Some? ==> s.value.socket == old(kernel.nextSocket)
      // Exactly one descriptor is left open, whichever way it went.
      ensures s.Some? ==> exists d: nat :: d !in old(kernel.open) && kernel.open == old(kernel.open)[d := s.value.socket]
    {
      ghost var before := kernel.open;
      var listener := kernel.Listen(listenFails);
      if listener.None? { return None; }
      ghost var socket := kernel.open[listener.value];
      if !tcp {
        var held := new BoundSocket.Holding(kernel, None, listener, socket);
        return Some(held);
      }
      var file := kernel.Duplicate(listener.value, duplicateFails);
      if file.None? {
        var held := new BoundSocket.Holding(kernel, None, listener, socket);
        return Some(held);
      }
      kernel.CloseDescriptor(listener.value);
      assert kernel.open == before[file.value := socket];
      var held := new BoundSocket.Holding(kernel, file, None, socket);
      return Some(held);
    }

    // The listener for the next generation; it belongs to the caller.
    method Next(fails: bool) returns (listener: Option<nat>)
      requires Valid()
      modifies this, kernel
      ensures Valid() && file == old(file)
      // With a duplicate: a new descriptor of the very same socket.
      ensures old(file).Some? ==>
        && (listener.None? <==> fails)
        && (listener.None? ==> kernel.open == old(kernel.open))
        && (listener.Some? ==>
              listener.value !in old(kernel.open) && kernel.open == old(kernel.open)[listener.value := socket])
      // Without one: the listener itself, once.
      ensures old(file).None? && old(this.listener).Some? ==>
        listener == old(this.listener) && this.listener == None && kernel.open == old(kernel.open)
      // After that the address is bound again, to another socket.
      ensures old(file).None? && old(this.listener).None? ==>
        && (listener.None? <==> fails)
        && (listener.None? ==> kernel.open == old(kernel.open))
        && (listener.Some? ==>
              listener.value !in old(kernel.open)
              && kernel.open == old(kernel.open)[listener.value := old(kernel.nextSocket)])
      ensures old(this.listener).None? ==> this.listener == None
    {
      if file.Some? {
        listener := kernel.Duplicate(file.value, fails);
        return;
      }
      if this.listener.Some? {
        listener := this.listener;
        this.listener := None;
        return;
      }
      listener := kernel.Listen(fails);
    }

    method Close()
      requires Valid()
      modifies this, kernel
      ensures Valid() && file == None && listener == None
      // It closes what it holds and nothing else.
      ensures kernel.open == old(kernel.open) - (if old(listener).Some? then {old(listener).value}
                                                 else if old(file).Some? then {old(file).value} else {})
    {
      if listener.Some? {
        kernel.CloseDescriptor(listener.value);
        listener := None;
        return;
      }
      if file.Some? {
        kernel.CloseDescriptor(file.value);
        file := None;
      }
    }
  }

  datatype Use = TakeNext(fails: bool) | ServerCloses(d: nat)

  // However generations take and close listeners, the duplicate keeps the
  // socket bound at first open, and every listener handed out is that socket.
  method Serve(s: BoundSocket, uses: seq<Use>) returns (handed: seq<nat>)
    requires s.Valid() && s.file.Some?
    requires forall i :: 0 <= i < |uses| && uses[i].ServerCloses? ==> uses[i].d != s.file.value
    modifies s, s.kernel
    ensures s.Valid() && s.file == old(s.file)
    ensures s.file.value in s.kernel.open && s.kernel.open[s.file.value] == s.socket
    ensures forall i :: 0 <= i < |handed| && handed[i] in s.kernel.open ==> s.kernel.open[handed[i]] == s.socket
  {
    handed := [];
    for i := 0 to |uses|
      invariant s.Valid() && s.file == old(s.file)
      invariant forall j :: 0 <= j < |handed| && handed[j] in s.kernel.open ==> s.kernel.open[handed[j]] == s.socket
    {
      match uses[i]
      case TakeNext(fails) =>
        var listener := s.Next(fails);
        if listener.Some? {
          handed := handed + [listener.value];
        }
      case ServerCloses(d) =>
        s.kernel.CloseDescriptor(d);
    }
  }
}
