/** Virtual proxy: the real image (whose constructor loads it) is built on
    the first `display` and reused afterwards. */
module VirtualProxy {
  import Seqs

  datatype Line = Loading(file: string) | Displaying(file: string)

  /** `image` is `null` until the first `display`; `log` holds the console lines. */
  datatype ImageProxy = ImageProxy(filename: string, loaded: bool, log: seq<Line>)

  function New(filename: string): (p: ImageProxy)
    ensures !p.loaded && p.log == [] && p.filename == filename
  {
    ImageProxy(filename, false, [])
  }

  /** `display`: construct (and so load) the image if there is none, then
      display it. */
  function Display(p: ImageProxy): (r: ImageProxy)
    ensures r.loaded && r.filename == p.filename
    ensures !p.loaded ==> r.log == p.log + [Loading(p.filename), Displaying(p.filename)]
    ensures p.loaded ==> r.log == p.log + [Displaying(p.filename)]
  {
    if !p.loaded then
      ImageProxy(p.filename, true, p.log + [Loading(p.filename), Displaying(p.filename)])
    else
      p.(log := p.log + [Displaying(p.filename)])
  }

  function DisplayN(p: ImageProxy, n: nat): ImageProxy
  {
    if n == 0 then p else Display(DisplayN(p, n - 1))
  }

  /** Across n calls the image is loaded at most once (exactly once when
      n > 0) and displayed n times. */
  lemma {:induction false} LoadedAtMostOnce(filename: string, n: nat)
    ensures var p := DisplayN(New(filename), n);
            Seqs.Count(p.log, Loading(filename)) == (if n == 0 then 0 else 1) &&
            Seqs.Count(p.log, Displaying(filename)) == n && p.loaded == (n > 0) &&
            p.filename == filename
  {
    if n > 0 {
      LoadedAtMostOnce(filename, n - 1);
      var q := DisplayN(New(filename), n - 1);
      var two := [Loading(filename), Displaying(filename)];
      assert two[1..] == [Displaying(filename)];
      assert [Displaying(filename)][1..] == [];
      if n == 1 {
        assert q.log == [];
        Seqs.CountAppend(q.log, [Loading(filename), Displaying(filename)], Loading(filename));
        Seqs.CountAppend(q.log, [Loading(filename), Displaying(filename)], Displaying(filename));
      } else {
        Seqs.CountAppend(q.log, [Displaying(filename)], Loading(filename));
        Seqs.CountAppend(q.log, [Displaying(filename)], Displaying(filename));
      }
    }
  }

  /** The client run: one display loads and displays nature.jpg. */
  lemma ClientRun()
    ensures Display(New("nature.jpg")).log == [Loading("nature.jpg"), Displaying("nature.jpg")]
  {
  }
}

/** Protection proxy: the real account refuses overdrafts; the proxy also
    refuses any withdrawal above 1000 without touching the account. */
module ProtectionProxy {

  const LIMIT: int := 1000

  datatype Line = Withdrew(amount: int) | InsufficientBalance | LimitExceeded

  datatype Account = Account(balance: int, log: seq<Line>)

  function GetBalance(a: Account): (b: int)
    ensures b == a.balance
  {
    a.balance
  }

  /** `BankAccount.withdraw`. */
  function Withdraw(a: Account, amount: int): (r: Account)
    ensures a.balance >= amount ==> r.balance == a.balance - amount && r.log == a.log + [Withdrew(amount)]
    ensures a.balance < amount ==> r.balance == a.balance && r.log == a.log + [InsufficientBalance]
  {
    if a.balance >= amount then Account(a.balance - amount, a.log + [Withdrew(amount)])
    else a.(log := a.log + [InsufficientBalance])
  }

  /** With a non-negative balance, `withdraw` never makes it negative. */
  lemma WithdrawKeepsNonNegative(a: Account, amount: int)
    requires a.balance >= 0
    ensures Withdraw(a, amount).balance >= 0
  {
  }

  /** `BankAccountProxy.withdraw`: forwards amounts up to the limit. */
  function ProxyWithdraw(account: Account, amount: int): (r: Account)
    ensures amount <= LIMIT ==> r == Withdraw(account, amount)
    ensures amount > LIMIT ==> r.balance == account.balance && r.log == account.log + [LimitExceeded]
  {
    if amount <= LIMIT then Withdraw(account, amount) else account.(log := account.log + [LimitExceeded])
  }

  /** `BankAccountProxy.getBalance` reads the real account. */
  function ProxyGetBalance(account: Account): (b: int)
    ensures b == GetBalance(account)
  {
    GetBalance(account)
  }

  /** Through the proxy the balance either stays put or changes by exactly
      `-amount`, for an amount within the limit and covered by the balance.
      Nothing rejects a negative amount, so that change can be a rise. */
  lemma ProxyWithdrawBounded(account: Account, amount: int)
    ensures var r := ProxyWithdraw(account, amount);
            r.balance == account.balance || (r.balance == account.balance - amount && amount <= LIMIT && amount <= account.balance)
  {
  }

  /** A negative withdrawal passes both checks and raises the balance by its
      magnitude. */
  lemma NegativeWithdrawRaises(account: Account, amount: int)
    requires amount < 0 && account.balance >= 0
    ensures ProxyWithdraw(account, amount).balance == account.balance + (-amount)
    ensures ProxyWithdraw(account, amount).balance > account.balance
  {
  }

  /** The client run: 2000, withdraw 800 gives 1200, then 1500 is refused. */
  lemma ClientRun()
    ensures ProxyGetBalance(Account(2000, [])) == 2000
    ensures ProxyWithdraw(Account(2000, []), 800) == Account(1200, [Withdrew(800)])
    ensures ProxyWithdraw(ProxyWithdraw(Account(2000, []), 800), 1500) ==
      Account(1200, [Withdrew(800), LimitExceeded])
  {
  }
}
