/**
  The status flags of a descriptor: what socket(2) and accept4(2) set, what
  fcntl(F_SETFL) replaces, and how the O_NONBLOCK bit decides whether a read waits.
*/
module DescriptorFlags {
  import opened Common
  import R = Receive

  const O_RDWR: bv32 := 0x2
  const O_APPEND: bv32 := 0x400
  const O_NONBLOCK: bv32 := 0x800
  const SETFL_MASK: bv32 := O_APPEND | O_NONBLOCK
  const SOCK_NONBLOCK: bv32 := 0x800
  const MSG_DONTWAIT: bv32 := 0x40

  /** How the descriptor came to be: socket(type), or accept4(flags) on a listening socket. */
  datatype Origin = BySocket(sockType: bv32) | ByAccept(listening: bv32, acceptFlags: bv32)

  function Initial(origin: Origin): (flags: bv32) {
    match origin
    case BySocket(t) => if t & SOCK_NONBLOCK != 0 then O_RDWR | O_NONBLOCK else O_RDWR
    case ByAccept(l, f) => if f & SOCK_NONBLOCK != 0 then l | O_NONBLOCK else l
  }

  function SetFl(flags: bv32, arg: bv32): (r: bv32) {
    (flags & !SETFL_MASK) | (arg & SETFL_MASK)
  }

  function Run(origin: Origin, args: seq<bv32>): (flags: bv32) {
    if args == [] then Initial(origin) else SetFl(Run(origin, args[..|args| - 1]), args[|args| - 1])
  }

  predicate NonBlocking(flags: bv32) { flags & O_NONBLOCK != 0 }

  /** What was asked for last: by F_SETFL, or when the descriptor was made. */
  predicate AskedNonBlocking(origin: Origin, args: seq<bv32>) {
    if args != [] then args[|args| - 1] & O_NONBLOCK != 0
    else match origin
      case BySocket(t) => t & SOCK_NONBLOCK != 0
      case ByAccept(l, f) => l & O_NONBLOCK != 0 || f & SOCK_NONBLOCK != 0
  }

  lemma {:induction false} SetFlBits(flags: bv32, arg: bv32)
    ensures SetFl(flags, arg) & O_NONBLOCK == arg & O_NONBLOCK
    ensures SetFl(flags, arg) & O_APPEND == arg & O_APPEND
    ensures SetFl(flags, arg) & !SETFL_MASK == flags & !SETFL_MASK
  {
  }

  /**
    After any number of F_SETFL calls the descriptor is non-blocking exactly when that
    was asked for last, and no flag but O_APPEND and O_NONBLOCK ever changed.
  */
  lemma {:induction false} LastRequestWins(origin: Origin, args: seq<bv32>)
    ensures NonBlocking(Run(origin, args)) <==> AskedNonBlocking(origin, args)
    ensures Run(origin, args) & !SETFL_MASK == Initial(origin) & !SETFL_MASK
  {
    if args != [] {
      LastRequestWins(origin, args[..|args| - 1]);
      SetFlBits(Run(origin, args[..|args| - 1]), args[|args| - 1]);
    }
  }

  /** A new socket can be read and written; an accepted one has its listener's flags; both may be non-blocking. */
  lemma {:induction false} NewDescriptor(origin: Origin)
    ensures
      var flags := Initial(origin);
      match origin
      case BySocket(t) => flags & !O_NONBLOCK == O_RDWR && (NonBlocking(flags) <==> t & SOCK_NONBLOCK != 0)
      case ByAccept(l, f) =>
        flags & !O_NONBLOCK == l & !O_NONBLOCK && (NonBlocking(flags) <==> NonBlocking(l) || f & SOCK_NONBLOCK != 0)
  {
  }

  function ConfigOf(flags: bv32, recvFlags: bv32, receiveTimeout: Option<nat>): (cfg: R.Config) {
    R.Config(NonBlocking(flags), recvFlags & MSG_DONTWAIT != 0, receiveTimeout)
  }

  /**
    A read on a descriptor with any history suspends exactly when SOCKFS has no answer,
    the last request left the descriptor blocking and MSG_DONTWAIT is absent; if it
    does not suspend, time and the world's later moves do not matter.
  */
  lemma {:induction false} SuspendsExactlyWhenBlocking(
      origin: Origin, args: seq<bv32>, recvFlags: bv32, receiveTimeout: Option<nat>,
      s: R.Sock, len: nat, start: nat, gaps: seq<R.Gap>)
    ensures
      var cfg := ConfigOf(Run(origin, args), recvFlags, receiveTimeout);
      var atOnce := R.RecvFrom(s, len, cfg, start, []);
      && (atOnce.result.None? <==>
            && R.RecvMsg(s, len).0 == R.Failed(EAGAIN)
            && !AskedNonBlocking(origin, args)
            && recvFlags & MSG_DONTWAIT == 0)
      && (atOnce.result.Some? ==> R.RecvFrom(s, len, cfg, start, gaps) == atOnce)
  {
    LastRequestWins(origin, args);
  }

  /** The stream object behind a descriptor. */
  class Stream {
    var flags: bv32

    /** __syscall_socket. */
    constructor Socket(sockType: bv32)
      ensures flags == Run(BySocket(sockType), [])
    {
      flags := O_RDWR;
      new;
      if sockType & SOCK_NONBLOCK != 0 {
        flags := flags | O_NONBLOCK;
      }
    }

    /** __syscall_accept4: SOCKFS copies the listening socket's flags. */
    constructor Accept4(listening: Stream, acceptFlags: bv32)
      ensures flags == Run(ByAccept(listening.flags, acceptFlags), [])
    {
      flags := listening.flags;
      new;
      if acceptFlags & SOCK_NONBLOCK != 0 {
        flags := flags | O_NONBLOCK;
      }
    }

    /**
      The F_SETFL branch of __syscall_fcntl64: the two settable bits become the
      argument's and every other bit stays.
    */
    method FcntlSetFl(arg: bv32)
      modifies this`flags
      ensures flags & O_NONBLOCK == arg & O_NONBLOCK
      ensures flags & O_APPEND == arg & O_APPEND
      ensures flags & !SETFL_MASK == old(flags) & !SETFL_MASK
      ensures flags == SetFl(old(flags), arg)
    {
      SetFlBits(flags, arg);
      flags := (flags & !SETFL_MASK) | (arg & SETFL_MASK);
    }
  }
}
