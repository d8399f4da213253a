/** Work that cancellation must not leave half done: password slots, and a user with its account. */
module Cancellation {
  // ----- Password slots -----

  /** One call of the hasher. A worker outlives its caller; `awaited` says whether the caller is still there. */
  datatype Call =
    | Waiting
    | Working(awaited: bool)
    | Over(acquired: bool)

  /** `releases` counts, for every call, how often its slot was given back. */
  datatype Slots = Slots(permits: nat, calls: map<nat, Call>, releases: map<nat, nat>)

  datatype SlotEvent =
    | Arrive(call: nat)
    | Acquire(call: nat, submitted: bool)
    | Cancel(call: nat)
    | Complete(call: nat)

  function Released(s: Slots, c: nat): nat { if c in s.releases then s.releases[c] else 0 }

  function GiveBack(s: Slots, c: nat): Slots {
    s.(permits := s.permits + 1, calls := s.calls[c := Over(true)], releases := s.releases[c := Released(s, c) + 1])
  }

  function SlotStep(s: Slots, e: SlotEvent): Slots {
    match e
    case Arrive(c) => if c in s.calls then s else s.(calls := s.calls[c := Waiting])
    case Acquire(c, submitted) =>
      if c in s.calls && s.calls[c].Waiting? && s.permits > 0 then
        var taken := s.(permits := s.permits - 1, calls := s.calls[c := Working(true)]);
        if submitted then taken else GiveBack(taken, c)
      else s
    case Cancel(c) =>
      if c !in s.calls then s
      else if s.calls[c].Waiting? then s.(calls := s.calls[c := Over(false)])
      else if s.calls[c].Working? then s.(calls := s.calls[c := Working(false)])
      else s
    case Complete(c) => if c in s.calls && s.calls[c].Working? then GiveBack(s, c) else s
  }

  function SlotRun(s: Slots, es: seq<SlotEvent>): Slots
    decreases |es|
  {
    if es == [] then s else SlotStep(SlotRun(s, es[..|es| - 1]), es[|es| - 1])
  }

  function Workers(s: Slots): set<nat> { set c | c in s.calls && s.calls[c].Working? }

  ghost predicate SlotInv(limit: nat, s: Slots) {
    && s.permits + |Workers(s)| == limit
    && s.releases.Keys <= s.calls.Keys
    && (forall c :: c in s.calls ==> Released(s, c) == if s.calls[c] == Over(true) then 1 else 0)
  }

  lemma ReleaseKeeps(limit: nat, s: Slots, c: nat)
    requires SlotInv(limit, s) && c in s.calls && s.calls[c].Working?
    ensures SlotInv(limit, GiveBack(s, c))
  {
    assert Workers(GiveBack(s, c)) == Workers(s) - {c};
  }

  lemma TakeKeeps(limit: nat, s: Slots, c: nat)
    requires SlotInv(limit, s) && c in s.calls && s.calls[c].Waiting? && s.permits > 0
    ensures SlotInv(limit, s.(permits := s.permits - 1, calls := s.calls[c := Working(true)]))
  {
    assert Workers(s.(permits := s.permits - 1, calls := s.calls[c := Working(true)])) == Workers(s) + {c};
  }

  lemma SlotStepKeeps(limit: nat, s: Slots, e: SlotEvent)
    requires SlotInv(limit, s)
    ensures SlotInv(limit, SlotStep(s, e))
  {
    var c := e.call;
    if e.Acquire? && c in s.calls && s.calls[c].Waiting? && s.permits > 0 {
      TakeKeeps(limit, s, c);
      if !e.submitted { ReleaseKeeps(limit, s.(permits := s.permits - 1, calls := s.calls[c := Working(true)]), c); }
    } else if e.Complete? && c in s.calls && s.calls[c].Working? {
      ReleaseKeeps(limit, s, c);
    } else {
      assert Workers(SlotStep(s, e)) == Workers(s);
    }
  }

  /**
   However calls arrive, fail, are cancelled and complete: running workers and free permits make up the limit, and a
   slot is given back exactly once, when its worker is done or could not be started, and never for a call that had none.
   */
  lemma {:induction false} SlotsConserved(limit: nat, es: seq<SlotEvent>)
    ensures var s := SlotRun(Slots(limit, map[], map[]), es);
      && s.permits + |Workers(s)| == limit
      && (forall c :: c in s.calls ==> Released(s, c) == if s.calls[c] == Over(true) then 1 else 0)
      && SlotInv(limit, s)
    decreases |es|
  {
    if es == [] {
      assert Workers(Slots(limit, map[], map[])) == {};
    } else {
      SlotsConserved(limit, es[..|es| - 1]);
      SlotStepKeeps(limit, SlotRun(Slots(limit, map[], map[]), es[..|es| - 1]), es[|es| - 1]);
    }
  }

  /**
   A waiting call starts as soon as a permit is free; a started worker keeps its slot until it is done, cancelled or
   not; and a worker that is done makes room for the next.
   */
  lemma SlotsMove(s: Slots, c: nat)
    requires c in s.calls
    ensures s.calls[c].Waiting? && s.permits > 0 ==>
              var t := SlotStep(s, Acquire(c, true)); Workers(t) == Workers(s) + {c} && t.permits == s.permits - 1
    ensures s.calls[c].Waiting? && s.permits > 0 ==>
              var t := SlotStep(s, Acquire(c, false)); Workers(t) == Workers(s) && t.permits == s.permits
    ensures s.permits == 0 ==> SlotStep(s, Acquire(c, true)) == s
    ensures Workers(SlotStep(s, Cancel(c))) == Workers(s) && SlotStep(s, Cancel(c)).permits == s.permits
    ensures s.calls[c].Waiting? ==> SlotStep(s, Cancel(c)).calls[c] == Over(false)
    ensures s.calls[c].Working? ==>
              var t := SlotStep(s, Complete(c)); Workers(t) == Workers(s) - {c} && t.permits == s.permits + 1
  {
  }

  /** The hasher's semaphore, and what its calls do to it. */
  class BoundedPasswordHasher {
    var permits: nat
    var calls: map<nat, Call>
    ghost var releases: map<nat, nat>

    ghost function State(): Slots
      reads this
    {
      Slots(permits, calls, releases)
    }

    constructor (limit: nat)
      requires limit >= 1
      ensures State() == Slots(limit, map[], map[])
    {
      permits, calls, releases := limit, map[], map[];
    }

    method Arrive(c: nat)
      modifies this
      ensures State() == SlotStep(old(State()), SlotEvent.Arrive(c))
    {
      if c !in calls { calls := calls[c := Waiting]; }
    }

    method Release(c: nat)
      modifies this
      ensures State() == GiveBack(old(State()), c)
    {
      permits := permits + 1;
      releases := releases[c := Released(State(), c) + 1];
      calls := calls[c := Over(true)];
    }

    /** The semaphore lets a waiting call through; handing the work to the executor may fail. */
    method Acquire(c: nat, submitted: bool)
      modifies this
      ensures State() == SlotStep(old(State()), SlotEvent.Acquire(c, submitted))
    {
      if c !in calls || !calls[c].Waiting? || permits == 0 { return; }
      permits := permits - 1;
      calls := calls[c := Working(true)];
      if !submitted { Release(c); }
    }

    /** A waiting call leaves the queue; a running worker is only left alone. */
    method Cancel(c: nat)
      modifies this
      ensures State() == SlotStep(old(State()), SlotEvent.Cancel(c))
    {
      if c !in calls { return; }
      if calls[c].Waiting? {
        calls := calls[c := Over(false)];
      } else if calls[c].Working? {
        calls := calls[c := Working(false)];
      }
    }

    /** The completion callback. */
    method Complete(c: nat)
      modifies this
      ensures State() == SlotStep(old(State()), SlotEvent.Complete(c))
    {
      if c in calls && calls[c].Working? { Release(c); }
    }
  }

  // ----- A user and its account -----

  /** How a write fails: not at all, before it takes effect, or after, its acknowledgement lost. */
  datatype Fault = NoFault | Before | After

  datatype Reply = Done | Duplicate | Broken

  datatype Outcome = Created | DuplicateError | AdapterError | Cancelled

  datatype User = User(id: string, email: string)

  class Identities {
    /** E-mail by user id, and owner by account id. */
    var users: map<string, string>
    var accounts: map<string, string>

    constructor ()
      ensures users == map[] && accounts == map[]
    {
      users, accounts := map[], map[];
    }

    predicate HasAccount(user: string)
      reads this
    {
      exists a :: a in accounts && accounts[a] == user
    }

    method CreateUser(u: User, fault: Fault) returns (r: Reply)
      modifies this`users
      ensures users == if r.Duplicate? || (r.Broken? && fault.Before?) then old(users) else old(users)[u.id := u.email]
      ensures r.Done? ==> fault.NoFault?
      ensures r.Duplicate? <==> !fault.Before? && exists id :: id in old(users) && old(users)[id] == u.email
      ensures r.Broken? ==> fault.Before? || fault.After?
    {
      if fault.Before? { return Broken; }
      if exists id :: id in users && users[id] == u.email { return Duplicate; }
      users := users[u.id := u.email];
      return if fault.After? then Broken else Done;
    }

    method CreateAccount(id: string, user: string, fault: Fault) returns (r: Reply)
      modifies this`accounts
      ensures accounts == if r.Broken? && fault.Before? then old(accounts) else old(accounts)[id := user]
      ensures r.Done? <==> fault.NoFault?
      ensures !r.Duplicate?
    {
      if fault.Before? { return Broken; }
      accounts := accounts[id := user];
      return if fault.After? then Broken else Done;
    }

    method DeleteUser(user: string)
      modifies this
      ensures users == old(users) - {user}
      ensures accounts == map a | a in old(accounts) && old(accounts)[a] != user :: old(accounts)[a]
    {
      users := users - {user};
      accounts := map a | a in accounts && accounts[a] != user :: accounts[a];
    }
  }

  /** Where the commit stands. */
  datatype Task = Starting | UserStored | Undoing | Ended(outcome: Outcome)

  class Commit {
    const db: Identities
    const user: User
    const accountId: string
    const userFault: Fault
    const accountFault: Fault
    var task: Task

    constructor (db: Identities, user: User, accountId: string, userFault: Fault, accountFault: Fault)
      ensures this.db == db && this.user == user && this.accountId == accountId
      ensures this.userFault == userFault && this.accountFault == accountFault && task == Starting
    {
      this.db, this.user, this.accountId := db, user, accountId;
      this.userFault, this.accountFault := userFault, accountFault;
      task := Starting;
    }

    /** The rows this commit does not own. */
    ghost predicate OthersKept(users: map<string, string>, accounts: map<string, string>)
      reads this, db
    {
      && (forall id :: id != user.id ==>
           (id in db.users <==> id in users) && (id in users ==> db.users[id] == users[id]))
      && (forall a :: a != accountId ==>
           (a in db.accounts <==> a in accounts) && (a in accounts ==> db.accounts[a] == accounts[a]))
    }

    /** How much of the identity is stored at each stage. */
    ghost predicate Stage()
      reads this, db
    {
      && (accountId in db.accounts ==> db.accounts[accountId] == user.id)
      && (forall a :: a in db.accounts && a != accountId ==> db.accounts[a] != user.id)
      && (task.Starting? ==> user.id !in db.users && accountId !in db.accounts)
      && (task.UserStored? ==> user.id in db.users && accountId !in db.accounts)
      && (task.Ended? ==> if task.outcome.Created? then user.id in db.users && accountId in db.accounts
                          else user.id !in db.users && accountId !in db.accounts)
    }

    /** The e-mail was another user's when the commit began. */
    ghost predicate Taken(users: map<string, string>) { exists id :: id in users && users[id] == user.email }

    ghost predicate WriteFails(users: map<string, string>) {
      userFault.Before? || (!Taken(users) && (userFault.After? || !accountFault.NoFault?))
    }

    /** What the faults and the e-mail decide, stage by stage. */
    ghost predicate Fate(users: map<string, string>)
      reads this, db
    {
      && (task.Starting? ==> db.users == users)
      && (task.UserStored? ==> userFault.NoFault? && !Taken(users))
      && (task.Undoing? ==> WriteFails(users))
      && (task.Ended? ==>
            match task.outcome
            case Created => userFault.NoFault? && accountFault.NoFault? && !Taken(users)
            case DuplicateError => !userFault.Before? && Taken(users)
            case AdapterError => WriteFails(users)
            case Cancelled => false)
    }

    /** One database call of the commit. */
    method Step(ghost users: map<string, string>, ghost accounts: map<string, string>)
      requires Stage() && OthersKept(users, accounts) && Fate(users) && !task.Ended?
      modifies this, db
      ensures Stage() && OthersKept(users, accounts) && Fate(users)
      ensures old(task).Starting? ==> task.UserStored? || task.Undoing? || task.Ended?
      ensures old(task).UserStored? ==> task.Undoing? || task.Ended?
      ensures old(task).Undoing? ==> task == Ended(AdapterError)
      ensures task.Ended? ==> !task.outcome.Cancelled?
      ensures task.Ended? && task.outcome.DuplicateError? ==> old(task).Starting?
    {
      if task.Starting? {
        var r := db.CreateUser(user, userFault);
        task := if r.Done? then UserStored else if r.Duplicate? then Ended(DuplicateError) else Undoing;
      } else if task.UserStored? {
        var r := db.CreateAccount(accountId, user.id, accountFault);
        task := if r.Done? then Ended(Created) else Undoing;
      } else {
        db.DeleteUser(user.id);
        task := Ended(AdapterError);
      }
    }

    /**
     Waits for the commit through any number of cancellations; `turns` says which comes next, a cancellation (true) or
     progress. However it ends, the user and its account are both stored or both absent, and no other row has changed.
     */
    method Persist(turns: seq<bool>) returns (outcome: Outcome)
      requires task.Starting? && user.id !in db.users && accountId !in db.accounts && !db.HasAccount(user.id)
      modifies this, db
      ensures OthersKept(old(db.users), old(db.accounts))
      ensures user.id in db.users <==> accountId in db.accounts
      ensures user.id in db.users <==> db.HasAccount(user.id)
      ensures outcome.Created? ==> user.id in db.users
      ensures outcome.DuplicateError? || outcome.AdapterError? ==> user.id !in db.users
      ensures outcome.Cancelled? ==> user.id in db.users
      ensures outcome.DuplicateError? <==> !userFault.Before? && Taken(old(db.users))
      ensures outcome.AdapterError? <==> WriteFails(old(db.users))
      ensures outcome.Cancelled? ==> exists i :: 0 <= i < |turns| && turns[i]
    {
      ghost var users, accounts := db.users, db.accounts;
      var cancelled := false;
      var i := 0;
      while !task.Ended?
        invariant Stage() && OthersKept(users, accounts) && Fate(users)
        invariant 0 <= i <= |turns| && (cancelled ==> exists j :: 0 <= j < |turns| && turns[j])
        invariant task.Ended? ==> !task.outcome.Cancelled?
        decreases |turns| - i
        decreases if task.Starting? then 3 else if task.UserStored? then 2 else if task.Undoing? then 1 else 0
      {
        if i < |turns| && turns[i] {
          cancelled := true;
        } else {
          Step(users, accounts);
        }
        if i < |turns| { i := i + 1; }
      }
      outcome := if cancelled && task.outcome.Created? then Cancelled else task.outcome;
    }
  }
}
