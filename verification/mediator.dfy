/** Chat room: every `User` registers itself with the mediator when it is
    constructed; `sendMessage` delivers to every registered user but the
    sender (compared by reference, modelled by ids). */
module ChatRoom {
  import Seqs
  import Broadcasts

  type Id = nat

  datatype Mediator = Mediator(users: seq<Id>)

  /** One `receiveMessage` call. */
  type Delivery = Broadcasts.Delivery<string>

  function NewMediator(): (m: Mediator)
    ensures m.users == []
  {
    Mediator([])
  }

  /** `addUser`: push at the end. */
  function AddUser(m: Mediator, u: Id): (r: Mediator)
    ensures r.users == m.users + [u]
  {
    Mediator(m.users + [u])
  }

  /** `new User(name, mediator)`: a fresh object, appended to the mediator's
      list by the constructor itself. */
  function NewUser(m: Mediator, u: Id): (r: Mediator)
    requires u !in m.users
    ensures r.users == m.users + [u] && Seqs.Count(r.users, u) == 1
  {
    Seqs.CountAppend(m.users, [u], u);
    Seqs.CountNotIn(m.users, u);
    AddUser(m, u)
  }

  /** The `forEach` with the `user !== sender` test: the users that receive,
      in registration order. */
  function Recipients(users: seq<Id>, sender: Id): (rs: seq<Id>)
    ensures sender !in rs
    ensures forall u :: u in rs <==> u in users && u != sender
    ensures forall u :: u != sender ==> Seqs.Count(rs, u) == Seqs.Count(users, u)
    ensures |rs| == |users| - Seqs.Count(users, sender)
  {
    if |users| == 0 then []
    else if users[0] == sender then Recipients(users[1..], sender)
    else [users[0]] + Recipients(users[1..], sender)
  }

  /** `sendMessage(message, sender)`: one delivery per recipient, in order. */
  function SendMessage(m: Mediator, message: string, sender: Id): (ds: seq<Delivery>)
    ensures |ds| == |Recipients(m.users, sender)|
    ensures forall i :: 0 <= i < |ds| ==> ds[i] == Broadcasts.Delivery(Recipients(m.users, sender)[i], message)
  {
    Broadcasts.Broadcast(Recipients(m.users, sender), message)
  }

  /** Recipients keep the registration order: filtering a push is pushing the
      filtered element. */
  lemma RecipientsOfPush(users: seq<Id>, u: Id, sender: Id)
    ensures Recipients(users + [u], sender) ==
      Recipients(users, sender) + (if u == sender then [] else [u])
  {
    if |users| > 0 {
      assert (users + [u])[1..] == users[1..] + [u];
      RecipientsOfPush(users[1..], u, sender);
    } else {
      assert users + [u] == [u];
    }
  }

  /** The client run: Alice (0) and Bob (1) register; each one's message
      reaches only the other. */
  lemma ClientRun()
    ensures SendMessage(NewUser(NewUser(NewMediator(), 0), 1), "Hello, Bob!", 0) ==
      [Broadcasts.Delivery(1, "Hello, Bob!")]
    ensures SendMessage(NewUser(NewUser(NewMediator(), 0), 1), "Hi, Alice!", 1) ==
      [Broadcasts.Delivery(0, "Hi, Alice!")]
  {
    var m := NewUser(NewUser(NewMediator(), 0), 1);
    assert m.users == [0, 1];
    assert m.users[1..] == [1];
    assert Recipients(m.users, 0) == [1];
    assert Recipients(m.users, 1) == [0];
  }
}

/** Air traffic control: landing is granted iff the aircraft is on the
    tower's list, and the `Aircraft` constructor puts it there. */
module AirTraffic {

  type Id = nat

  datatype Tower = Tower(aircraft: seq<Id>)

  datatype Answer = Granted | Denied

  function NewTower(): (t: Tower)
    ensures t.aircraft == []
  {
    Tower([])
  }

  /** `registerAircraft`: push at the end. */
  function RegisterAircraft(t: Tower, a: Id): (r: Tower)
    ensures r.aircraft == t.aircraft + [a]
  {
    Tower(t.aircraft + [a])
  }

  /** `new Aircraft(name, tower)`: registers itself. */
  function NewAircraft(t: Tower, a: Id): (r: Tower)
    ensures a in r.aircraft
    ensures forall b :: b in t.aircraft ==> b in r.aircraft
  {
    RegisterAircraft(t, a)
  }

  /** `requestLanding`: `includes` on the registered list. */
  function RequestLanding(t: Tower, a: Id): (ans: Answer)
    ensures ans == Granted <==> a in t.aircraft
    ensures ans == Denied <==> a !in t.aircraft
  {
    if a in t.aircraft then Granted else Denied
  }

  /** Registrations only add: once granted, always granted. */
  function RegisterAll(t: Tower, later: seq<Id>): (r: Tower)
    ensures forall b :: b in t.aircraft ==> b in r.aircraft
    ensures forall b :: b in later ==> b in r.aircraft
    decreases |later|
  {
    if |later| == 0 then t else RegisterAll(RegisterAircraft(t, later[0]), later[1..])
  }

  /** An aircraft constructed with a tower is granted landing there, however
      many aircraft are constructed after it. */
  lemma ConstructedIsGranted(t: Tower, a: Id, later: seq<Id>)
    ensures RequestLanding(RegisterAll(NewAircraft(t, a), later), a) == Granted
  {
  }

  /** An aircraft never constructed with this tower is denied. */
  lemma UnregisteredIsDenied(t: Tower, a: Id)
    requires a !in t.aircraft
    ensures RequestLanding(t, a) == Denied
  {
  }

  /** The client run: flights 123 and 456 both land. */
  lemma ClientRun()
    ensures RequestLanding(NewAircraft(NewAircraft(NewTower(), 123), 456), 123) == Granted
    ensures RequestLanding(NewAircraft(NewAircraft(NewTower(), 123), 456), 456) == Granted
  {
  }
}
