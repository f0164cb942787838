/** The per-chat limiter: a set of chats with a request in flight. A chat is
    locked by inserting it, which succeeds only when it is absent, and
    unlocked when its guard is released. */
module Concurrency {
  import opened Wrappers

  /** LockGuard: remembers the limiter and the chat it locked. Dropping it
      (modelled as an explicit call to Drop) releases that chat. A value is
      dropped at most once; `released` records that it has been. Only
      ConcurrencyLimiter.TryLock is meant to construct a guard, as the Rust
      type's private fields ensure; a guard built elsewhere for a chat that
      another guard holds would release that holder's chat. */
  class LockGuard {
    const limiter: ConcurrencyLimiter
    const id: int
    ghost var released: bool

    constructor (limiter: ConcurrencyLimiter, id: int)
      ensures this.limiter == limiter && this.id == id && !released
    {
      this.limiter := limiter;
      this.id := id;
      released := false;
    }

    /** Drop: removes exactly this guard's chat; every other chat stays held.
        A guard is dropped once, so a released guard cannot release the chat
        of a later holder. */
    method Drop()
      requires !released
      modifies limiter, this
      ensures released
      ensures limiter.processingUsers == old(limiter.processingUsers) - {id}
    {
      limiter.processingUsers := limiter.processingUsers - {id};
      released := true;
    }
  }

  class ConcurrencyLimiter {
    var processingUsers: set<int>

    /** A new limiter holds no chats. */
    constructor ()
      ensures processingUsers == {}
    {
      processingUsers := {};
    }

    /** try_lock: the set's insert reports whether the chat was absent; a
        guard is returned exactly then, and afterwards the chat is held
        either way. */
    method TryLock(chatId: int) returns (guard: Option<LockGuard>)
      modifies this
      ensures guard.Some? <==> chatId !in old(processingUsers)
      ensures processingUsers == old(processingUsers) + {chatId}
      ensures guard.Some? ==>
        fresh(guard.value) && guard.value.limiter == this && guard.value.id == chatId && !guard.value.released
    {
      var inserted := chatId !in processingUsers;
      processingUsers := processingUsers + {chatId};
      if inserted {
        var g := new LockGuard(this, chatId);
        guard := Some(g);
      } else {
        guard := None;
      }
    }
  }

  /** Two attempts for the same chat with no release in between: exactly one
      succeeds when the chat was free, and the second always fails. */
  method TryLockTwice(limiter: ConcurrencyLimiter, chatId: int)
    returns (first: Option<LockGuard>, second: Option<LockGuard>)
    modifies limiter
    ensures first.Some? <==> chatId !in old(limiter.processingUsers)
    ensures second.None?
    ensures limiter.processingUsers == old(limiter.processingUsers) + {chatId}
  {
    first := limiter.TryLock(chatId);
    second := limiter.TryLock(chatId);
  }

  /** Lock, release, lock again: after the guard is dropped the chat can be
      locked anew, and the release did not touch any other chat. */
  method LockReleaseLock(limiter: ConcurrencyLimiter, chatId: int) returns (again: Option<LockGuard>)
    requires chatId !in limiter.processingUsers
    modifies limiter
    ensures again.Some? && again.value.id == chatId
    ensures limiter.processingUsers == old(limiter.processingUsers) + {chatId}
  {
    var guard := limiter.TryLock(chatId);
    guard.value.Drop();
    assert limiter.processingUsers == old(limiter.processingUsers);
    again := limiter.TryLock(chatId);
  }
}
