/** End-to-end runs of the service on a fresh store, and the agreement between
    what the client screens send and what the server accepts. */
module Scenarios {
  import opened Seqs
  import opened Text
  import opened Records
  import opened Ledger
  import opened Auth
  import opened Server
  import AddExpenseScreen
  import FeedbackScreen

  /** Register, log in, then call a protected route with the client's
      `Bearer` header before the second of the token's `exp` claim: the
      caller is bound to the registered user and sees their profile. */
  method RegisterLoginProfile(c: Crypto, email: string, password: string, name: string, t0: Date, t1: Date, t2: Date)
    returns (registered: Response, loggedIn: Response, access: Access, profile: Response)
    requires HashSound(c) && TokensValid(c)
    requires email != "" && name != "" && c.hash(password) != ""
    requires t1 <= t2 && Seconds(t2) < Expiry(t1)
    ensures registered.status == 201 && registered.body.Session?
    ensures registered.body.user == PublicUser(registered.body.user.id, email, name)
    ensures loggedIn.status == 200 && loggedIn.body.Session? && loggedIn.body.user == registered.body.user
    ensures access == Granted(registered.body.user.id)
    ensures profile == Response(200, UserProfile(Profile(registered.body.user.id, email, name, t0)))
  {
    var s := new Store(c);
    registered := s.Register(email, password, name, t0);
    var u := s.users[0];
    assert s.users == [u];
    assert c.compare(password, u.passwordHash);
    loggedIn := s.Login(email, password, t1);
    var token := c.sign(u.id, t1);
    assert loggedIn == Response(200, Session(token, PublicUserOf(u)));
    access := Guard(Some(BearerPrefix + loggedIn.body.token), c.verify, t2);
    IssuedTokenGrants(c, u.id, t1, t2);
    profile := s.GetProfile(access.userId);
  }

  /** A second registration with the same email is refused and stores nothing. */
  method RegisterTwice(c: Crypto, email: string, password: string, name: string, otherPassword: string, otherName: string, now: Date)
    returns (first: Response, second: Response, users: seq<User>)
    requires email != "" && name != "" && c.hash(password) != ""
    ensures first.status == 201
    ensures second == Response(400, Message(MsgEmailTaken))
    ensures |users| == 1 && users[0].email == email && users[0].passwordHash == c.hash(password)
  {
    var s := new Store(c);
    first := s.Register(email, password, name, now);
    second := s.Register(email, otherPassword, otherName, now);
    users := s.users;
  }

  /** A first expense on a fresh store: 12.50 in "Nourriture" without a date
      is stored with the request time as its date, listed alone, and
      summarised as `{ total: 12.5, byCategory: { Nourriture: 12.5 }, count: 1 }`. */
  method FirstExpense(c: Crypto, uid: Id, now: Date) returns (created: Response, listed: Response, stats: Response)
    ensures created.status == 201 && created.body.OneExpense?
    ensures created.body.expense.date == now && created.body.expense.amount == 12.5
    ensures listed == Response(200, Expenses([created.body.expense]))
    ensures stats == Response(200, Stats(Summary(12.5, map["Nourriture" := 12.5], 1)))
  {
    var s := new Store(c);
    created := s.CreateExpense(uid, Some(12.5), "Nourriture", None, None, now);
    var e := created.body.expense;
    assert Filter(s.expenses, ExpenseOwnedBy(uid)) == [e];
    listed := s.ListExpenses(uid);
    OnlyElement(listed.body.expenses, e);
    stats := s.ExpenseStats(uid);
    SummaryOfOne(stats.body.summary, e);
  }

  /** A list with the multiset of one record is that record alone. */
  lemma OnlyElement(r: seq<Expense>, e: Expense)
    requires multiset(r) == multiset{e}
    ensures r == [e]
  {
    assert |r| == |multiset(r)| == 1;
    assert r[0] in multiset(r);
  }

  /** The stats of a single record: its amount as total and as its category's sum, count 1. */
  lemma SummaryOfOne(sum: Summary, e: Expense)
    requires sum.total == Total([e]) && sum.count == 1
    requires sum.byCategory.Keys == Categories([e])
    requires forall c :: c in sum.byCategory ==> sum.byCategory[c] == CategoryTotal([e], c)
    ensures sum == Summary(e.amount, map[e.category := e.amount], 1)
  {
    assert Total([e]) == e.amount by { assert [e][..0] == []; }
    assert Categories([e]) == {e.category};
    assert Filter([e], InCategory(e.category)) == [e];
  }

  /** Another user's record is invisible: updating or deleting it by its id
      gives 404, exactly as for an id that does not exist, and it stays stored. */
  method OtherUsersExpense(c: Crypto, owner: Id, other: Id, now: Date)
    returns (created: Response, updated: Response, deleted: Response, listed: Response, stored: seq<Expense>)
    requires owner != other
    ensures created.status == 201 && created.body.OneExpense?
    ensures updated == Response(404, Message(MsgExpenseNotFound))
    ensures deleted == Response(404, Message(MsgExpenseNotFound))
    ensures listed == Response(200, Expenses([]))
    ensures stored == [created.body.expense]
  {
    var s := new Store(c);
    created := s.CreateExpense(owner, Some(3.0), "Transport", Some("bus"), None, now);
    var e := created.body.expense;
    updated := s.UpdateExpense(other, e.id, Patch(Some(1.0), None, None, None));
    deleted := s.DeleteExpense(other, e.id);
    listed := s.ListExpenses(other);
    assert Filter(s.expenses, ExpenseOwnedBy(other)) == [];
    stored := s.expenses;
  }

  /** The feedback form only submits what the server's schema accepts. */
  lemma FeedbackFormAccepted(kind: string, message: string)
    requires kind in FeedbackScreen.TypeIds
    requires FeedbackScreen.CheckMessage(message).Accepted?
    ensures IsFeedbackKind(kind)
    ensures FeedbackScreen.CheckMessage(message).message != ""
    ensures |FeedbackScreen.CheckMessage(message).message| >= FeedbackScreen.MinLength
  {
  }

  /** The feedback form used twice in a row: pick "bug", type a long enough
      message, send it and confirm the thanks; the form is back to its initial
      type and an empty message. A second, too short message is then refused
      on the client and nothing more is sent. */
  method FeedbackFormTwice() returns (first: FeedbackScreen.Alert, second: FeedbackScreen.Alert,
                                      sent: seq<FeedbackScreen.Sent>, kind: string, message: string)
    ensures first == FeedbackScreen.AlertThanks
    ensures second == FeedbackScreen.Alert("Erreur", FeedbackScreen.MsgTooShort)
    ensures sent == [FeedbackScreen.Sent(FeedbackScreen.Payload("bug", "un message assez long"), true)]
    ensures kind == FeedbackScreen.DefaultType && message == "court"
  {
    var form := new FeedbackScreen.Screen();
    form.SelectType(0);
    form.EditMessage("un message assez long");
    TrimOfTrimmed("un message assez long");
    first := form.Submit(true);
    form.ConfirmThanks();
    form.EditMessage("court");
    TrimOfTrimmed("court");
    second := form.Submit(false);
    sent, kind, message := form.sent, form.kind, form.message;
  }

  /** How the server reads the body of the form's update call: amount,
      category and description present, date absent. */
  function PatchOf(p: AddExpenseScreen.Payload): Patch
  {
    Patch(Some(p.amount), Some(p.category), Some(p.description), None)
  }

  /** Editing an expense from the form replaces amount, category and
      description and keeps its date, since the form never sends one. */
  lemma FormUpdateKeepsDate(e: Expense, p: AddExpenseScreen.Payload)
    ensures ApplyPatch(e, PatchOf(p)) == e.(amount := p.amount, category := p.category, description := Some(p.description))
  {
  }

  /** A fresh add-expense form filled in and sent: the amount "12.5", the
      "Transport" button and a description give exactly one create call with
      the parsed amount, while an empty amount on a second try is refused on
      the client and sends nothing more. */
  method FormCreatesExpense(parse: string -> Option<real>, show: real -> string)
    returns (first: AddExpenseScreen.Alert, second: AddExpenseScreen.Alert, sent: seq<AddExpenseScreen.Sent>)
    requires parse("12.5") == Some(12.5)
    ensures first == AddExpenseScreen.Alert("Succès", "Dépense ajoutée avec succès")
    ensures second == AddExpenseScreen.Alert("Erreur", AddExpenseScreen.MsgAmountMissing)
    ensures sent == [AddExpenseScreen.Sent(AddExpenseScreen.Create(AddExpenseScreen.Payload(12.5, "Transport", "Bus")), true)]
  {
    var form := new AddExpenseScreen.Screen(None, show);
    form.EditAmount("12.5");
    form.SelectCategory(1);
    form.EditDescription("Bus");
    first := form.Submit(parse, true);
    form.EditAmount("");
    second := form.Submit(parse, true);
    sent := form.sent;
  }
}
