/** The two buses of nes.js: `ArrayBus` (nes.js:1252-1266), a plain memory the
    tests wire the CPU to, and `MemoryBus` (nes.js:508-519), which routes each
    address to the callback registered for the range holding it. */
module Buses {
  import opened Wrappers
  import opened Bytes

  /** `ArrayBus`: an array of cells, all 0 when built. */
  class ArrayBus {
    const cells: array<Byte>

    /** `new ArrayBus(s)`: `super(s).fill(0)`. */
    constructor(size: nat)
      ensures fresh(cells)
      ensures cells.Length == size
      ensures forall i :: 0 <= i < size ==> cells[i] == 0
    {
      cells := new Byte[size](_ => 0);
    }

    /** `read(addr)`. */
    method Read(addr: int) returns (v: Byte)
      requires 0 <= addr < cells.Length
      ensures v == cells[addr]
    {
      v := cells[addr];
    }

    /** `write(addr, data)`: the one cell changes. */
    method Write(addr: int, data: Byte)
      requires 0 <= addr < cells.Length
      modifies cells
      ensures cells[..] == old(cells[..])[addr := data]
    {
      cells[addr] := data;
    }

    /** `writeBuffer(addr, buffer)`: the buffer's bytes land at addr, addr+1,
        ..., and every other cell keeps its value. */
    method WriteBuffer(addr: int, buffer: seq<Byte>)
      requires 0 <= addr && addr + |buffer| <= cells.Length
      modifies cells
      ensures cells[..] == old(cells[..])[..addr] + buffer + old(cells[..])[addr + |buffer|..]
    {
      var i := 0;
      while i < |buffer|
        invariant 0 <= i <= |buffer|
        invariant cells[..] == old(cells[..])[..addr] + buffer[..i] + old(cells[..])[addr + i..]
      {
        cells[addr + i] := buffer[i];
        assert buffer[..i + 1] == buffer[..i] + [buffer[i]];
        i := i + 1;
      }
      assert buffer[..i] == buffer;
    }
  }

  /** One registration: a closed range of addresses and its callback. The
      callbacks reach into the PPU, the joypad and the work RAM; here they are
      whatever values the caller registers. */
  datatype Route<C> = Route(start: int, end: int, callback: C)

  /** The filter `v => v >= start && v <= end`. */
  predicate Covers<C>(route: Route<C>, addr: int)
  {
    route.start <= addr <= route.end
  }

  /** Thrown by `findCallback` for an address no route covers. */
  datatype BusError = InvalidAddress(addr: int)

  /** `MemoryBus`: read routes `r` and write routes `w`, searched in order of
      registration. */
  class MemoryBus<C> {
    var w: seq<Route<C>>
    var r: seq<Route<C>>

    constructor()
      ensures w == [] && r == []
    {
      w := [];
      r := [];
    }

    /** `handleGet(start, end, fn)`: a read route, searched after the earlier
        ones. */
    method HandleGet(start: int, end: int, fn: C)
      modifies this
      ensures r == old(r) + [Route(start, end, fn)] && w == old(w)
    {
      r := r + [Route(start, end, fn)];
    }

    /** `handlePut(start, end, fn)`. As written it appends to the READ routes,
        exactly like `handleGet`; nothing ever adds to `w`. */
    method HandlePut(start: int, end: int, fn: C)
      modifies this
      ensures r == old(r) + [Route(start, end, fn)] && w == old(w)
    {
      r := r + [Route(start, end, fn)];
    }

    /** `findCallback(where, addr)`: the callback of the first route covering
        the address, or the "Invalid address" error when none does. */
    method FindCallback(where: seq<Route<C>>, addr: int) returns (res: Result<C, BusError>)
      ensures res.Success? ==>
        exists i :: 0 <= i < |where| && Covers(where[i], addr)
          && res.value == where[i].callback
          && forall j :: 0 <= j < i ==> !Covers(where[j], addr)
      ensures res.Failure? ==>
        res.error == InvalidAddress(addr) && forall i :: 0 <= i < |where| ==> !Covers(where[i], addr)
    {
      var i := 0;
      while i < |where|
        invariant 0 <= i <= |where|
        invariant forall j :: 0 <= j < i ==> !Covers(where[j], addr)
      {
        if Covers(where[i], addr) {
          return Success(where[i].callback);
        }
        i := i + 1;
      }
      return Failure(InvalidAddress(addr));
    }

    /** `read(addr)`: the callback chosen among the read routes. Calling it is
        left to the caller. */
    method Read(addr: int) returns (res: Result<C, BusError>)
      ensures res == FirstCovering(r, addr)
    {
      res := FindCallback(r, addr);
      FirstCoveringIsTheFirst(r, addr, res);
    }

    /** `write(addr, val)`: the callback chosen among the write routes. */
    method Write(addr: int) returns (res: Result<C, BusError>)
      ensures res == FirstCovering(w, addr)
    {
      res := FindCallback(w, addr);
      FirstCoveringIsTheFirst(w, addr, res);
    }
  }

  /** A fresh bus with one `handlePut` registration: reads of the range
      reach the callback, and since `handlePut` fills the read routes, every
      write fails with "Invalid address", inside the range or not. */
  method HandlePutRoutesReads<C>(start: int, end: int, fn: C, addr: int)
    returns (read: Result<C, BusError>, write: Result<C, BusError>)
    ensures read == if start <= addr <= end then Success(fn) else Failure(InvalidAddress(addr))
    ensures write == Failure(InvalidAddress(addr))
  {
    var bus := new MemoryBus<C>();
    bus.HandlePut(start, end, fn);
    read := bus.Read(addr);
    write := bus.Write(addr);
    assert [Route(start, end, fn)][1..] == [];
  }

  /** The route search as a function on the list of routes. */
  function FirstCovering<C>(routes: seq<Route<C>>, addr: int): Result<C, BusError>
  {
    if |routes| == 0 then Failure(InvalidAddress(addr))
    else if Covers(routes[0], addr) then Success(routes[0].callback)
    else FirstCovering(routes[1..], addr)
  }

  /** Any result that is the callback of the first covering route, or the
      error when no route covers, is FirstCovering's. */
  lemma {:induction false} FirstCoveringIsTheFirst<C>(routes: seq<Route<C>>, addr: int, res: Result<C, BusError>)
    requires res.Success? ==>
      exists i :: 0 <= i < |routes| && Covers(routes[i], addr)
        && res.value == routes[i].callback
        && forall j :: 0 <= j < i ==> !Covers(routes[j], addr)
    requires res.Failure? ==>
      res.error == InvalidAddress(addr) && forall i :: 0 <= i < |routes| ==> !Covers(routes[i], addr)
    ensures res == FirstCovering(routes, addr)
  {
    if |routes| == 0 {
    } else if Covers(routes[0], addr) {
      if res.Success? {
        var i :| 0 <= i < |routes| && Covers(routes[i], addr)
          && res.value == routes[i].callback
          && forall j :: 0 <= j < i ==> !Covers(routes[j], addr);
        assert i == 0;
      }
    } else {
      if res.Success? {
        var i :| 0 <= i < |routes| && Covers(routes[i], addr)
          && res.value == routes[i].callback
          && forall j :: 0 <= j < i ==> !Covers(routes[j], addr);
        assert i > 0;
        assert Covers(routes[1..][i - 1], addr);
        forall j | 0 <= j < i - 1 ensures !Covers(routes[1..][j], addr) {
          assert routes[1..][j] == routes[j + 1];
        }
      } else {
        forall j | 0 <= j < |routes| - 1 ensures !Covers(routes[1..][j], addr) {
          assert routes[1..][j] == routes[j + 1];
        }
      }
      FirstCoveringIsTheFirst(routes[1..], addr, res);
    }
  }

  /** A route registered after one that already covers an address never
      answers for it: the first registration wins. */
  lemma {:induction false} EarlierRouteWins<C>(routes: seq<Route<C>>, extra: Route<C>, addr: int)
    requires FirstCovering(routes, addr).Success?
    ensures FirstCovering(routes + [extra], addr) == FirstCovering(routes, addr)
  {
    if Covers(routes[0], addr) {
      assert (routes + [extra])[0] == routes[0];
    } else {
      assert (routes + [extra])[1..] == routes[1..] + [extra];
      EarlierRouteWins(routes[1..], extra, addr);
    }
  }

  /** A route appended to the list answers for an address no earlier route
      covers exactly when it covers it. */
  lemma {:induction false} AppendedRouteAnswersTheRest<C>(routes: seq<Route<C>>, extra: Route<C>, addr: int)
    requires FirstCovering(routes, addr).Failure?
    ensures FirstCovering(routes + [extra], addr) ==
      if Covers(extra, addr) then Success(extra.callback) else Failure(InvalidAddress(addr))
  {
    if |routes| == 0 {
      assert routes + [extra] == [extra];
      assert [extra][1..] == [];
    } else {
      assert (routes + [extra])[0] == routes[0];
      assert (routes + [extra])[1..] == routes[1..] + [extra];
      AppendedRouteAnswersTheRest(routes[1..], extra, addr);
    }
  }
}
