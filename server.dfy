/** The HTTP service: one in-memory store holding the user, expense and
    feedback collections, one method per route, and the dispatcher that puts
    the access guard in front of the protected routes. Each route is one
    atomic step; the database is the store's three sequences. */
module Server {
  import opened Seqs
  import opened Records
  import opened Ledger
  import opened Auth

  const MsgAuthRequired: string := "Authentification requise"
  const MsgInvalidToken: string := "Token invalide"
  const MsgEmailTaken: string := "Email déjà utilisé"
  const MsgBadCredentials: string := "Email ou mot de passe incorrect"
  const MsgExpenseNotFound: string := "Dépense non trouvée"
  const MsgExpenseDeleted: string := "Dépense supprimée"
  const MsgUserNotFound: string := "Utilisateur non trouvé"
  const MsgFeedbackSent: string := "Feedback envoyé avec succès"

  datatype Body =
    | Message(text: string)
    | Session(token: string, user: PublicUser)
    | OneExpense(expense: Expense)
    | Expenses(expenses: seq<Expense>)
    | Stats(summary: Summary)
    | UserProfile(profile: Profile)
    | Feedbacks(feedback: seq<Feedback>)
    | Health(status: string, text: string)
      /** A 500 carrying the thrown error's message, whose text is not modelled. */
    | InternalError

  datatype Response = Response(status: nat, body: Body)

  /** The body of `PUT /expenses/:id`: an absent field (`None`) is left out of the update. */
  datatype Patch = Patch(amount: Option<real>, category: Option<string>, description: Option<string>, date: Option<Date>)

  /** The routes with their JSON bodies. A missing or empty string field is `""`:
      the schemas' `required` validator refuses both alike. `date: None`
      stands for every falsy value of the body's `date`. */
  datatype Request =
    | Register(email: string, password: string, name: string)
    | Login(email: string, password: string)
    | CreateExpense(amount: Option<real>, category: string, description: Option<string>, date: Option<Date>)
    | ListExpenses
    | ExpenseStats
    | UpdateExpense(id: Id, patch: Patch)
    | DeleteExpense(id: Id)
    | GetProfile
    | UpdateProfile(newName: Option<string>)
    | SubmitFeedback(kind: string, message: string)
    | ListFeedback
    | HealthCheck

  /** The routes mounted behind the access guard. */
  predicate IsProtected(r: Request)
  {
    !(r.Register? || r.Login? || r.HealthCheck?)
  }

  /** `findOneAndUpdate(…, { amount, category, description, date })`: the
      four mutable fields take the values present in the body; `_id`,
      `userId` and `createdAt` are never touched. */
  function ApplyPatch(e: Expense, p: Patch): (r: Expense)
    ensures r.id == e.id && r.userId == e.userId && r.createdAt == e.createdAt
    ensures p == Patch(None, None, None, None) ==> r == e
  {
    Expense(
      e.id, e.userId,
      p.amount.GetOr(e.amount),
      p.category.GetOr(e.category),
      if p.description.Some? then p.description else e.description,
      p.date.GetOr(e.date),
      e.createdAt)
  }

  /** `date || new Date()`. */
  function DateOrNow(date: Option<Date>, now: Date): Date
  {
    date.GetOr(now)
  }

  /** Deleting the record at `i`, the one matching `(id, uid)`, removes exactly
      the records matching `(id, uid)`. */
  lemma RemoveMatchingExpense(es: seq<Expense>, i: nat, id: Id, uid: Id, next: Id)
    requires ExpenseIdsFresh(es, next)
    requires i < |es| && es[i].id == id && es[i].userId == uid
    ensures forall e :: e in es[..i] + es[i + 1..] <==> e in es && !(e.id == id && e.userId == uid)
  {
    var rest := es[..i] + es[i + 1..];
    forall e | e in rest ensures e in es && !(e.id == id && e.userId == uid) {
      var j :| 0 <= j < |rest| && rest[j] == e;
      RemoveAtIndex(es, i, j);
      var j' := if j < i then j else j + 1;
      assert es[j'] == e && j' != i;
    }
    forall e | e in es && !(e.id == id && e.userId == uid) ensures e in rest {
      var j :| 0 <= j < |es| && es[j] == e;
      assert j != i;
      RemoveAtIndex(es, i, if j < i then j else j - 1);
    }
  }

  /** Deleting a record keeps the expense ids unique and below the counter. */
  lemma RemoveKeepsIdsFresh(es: seq<Expense>, i: nat, next: Id)
    requires ExpenseIdsFresh(es, next) && i < |es|
    ensures ExpenseIdsFresh(es[..i] + es[i + 1..], next)
  {
    var rest := es[..i] + es[i + 1..];
    forall a | 0 <= a < |rest| ensures rest[a].id < next {
      RemoveAtIndex(es, i, a);
    }
    forall a, b | 0 <= a < b < |rest| ensures rest[a].id != rest[b].id {
      RemoveAtIndex(es, i, a);
      RemoveAtIndex(es, i, b);
    }
  }

  class Store {
    const crypto: Crypto
    var users: seq<User>
    var expenses: seq<Expense>
    var feedback: seq<Feedback>
    /** The next fresh ObjectId. */
    var nextId: nat

    ghost predicate Valid()
      reads this
    {
      && UniqueEmails(users)
      && UserIdsFresh(users, nextId)
      && ExpenseIdsFresh(expenses, nextId)
      && FeedbackIdsFresh(feedback, nextId)
      && FeedbackValid(feedback)
    }

    /** The tables of the store were not written. */
    twostate predicate Untouched()
      reads this
    {
      users == old(users) && expenses == old(expenses) && feedback == old(feedback) && nextId == old(nextId)
    }

    constructor (crypto: Crypto)
      ensures Valid()
      ensures this.crypto == crypto
      ensures users == [] && expenses == [] && feedback == []
    {
      this.crypto := crypto;
      users, expenses, feedback := [], [], [];
      nextId := 0;
    }

    /** `POST /register`. */
    method Register(email: string, password: string, name: string, now: Date) returns (resp: Response)
      requires Valid()
      modifies this
      ensures Valid()
      ensures expenses == old(expenses) && feedback == old(feedback)
      ensures FindIndex(old(users), HasEmail(email)).Some? ==>
        resp == Response(400, Message(MsgEmailTaken)) && Untouched()
      ensures FindIndex(old(users), HasEmail(email)).None? && (email == "" || crypto.hash(password) == "" || name == "") ==>
        resp == Response(500, InternalError) && Untouched()
      ensures FindIndex(old(users), HasEmail(email)).None? && email != "" && crypto.hash(password) != "" && name != "" ==>
        var u := User(old(nextId), email, crypto.hash(password), name, now);
        && users == old(users) + [u]
        && resp == Response(201, Session(crypto.sign(u.id, now), PublicUser(u.id, email, name)))
    {
      if FindIndex(users, HasEmail(email)).Some? {
        return Response(400, Message(MsgEmailTaken));
      }
      var hashed := crypto.hash(password);
      if email == "" || hashed == "" || name == "" {
        return Response(500, InternalError);
      }
      var u := User(nextId, email, hashed, name, now);
      users := users + [u];
      nextId := nextId + 1;
      resp := Response(201, Session(crypto.sign(u.id, now), PublicUserOf(u)));
    }

    /** `POST /login`: one refusal for an unknown email and for a wrong password. */
    method Login(email: string, password: string, now: Date) returns (resp: Response)
      requires Valid()
      ensures resp.status == 200 <==>
        exists i :: 0 <= i < |users| && users[i].email == email && crypto.compare(password, users[i].passwordHash)
      ensures resp.status != 200 ==> resp == Response(400, Message(MsgBadCredentials))
      ensures resp.status == 200 ==> exists i :: (0 <= i < |users| && users[i].email == email &&
        resp == Response(200, Session(crypto.sign(users[i].id, now), PublicUserOf(users[i]))))
    {
      var k := FindIndex(users, HasEmail(email));
      if k.None? {
        return Response(400, Message(MsgBadCredentials));
      }
      var u := users[k.value];
      if !crypto.compare(password, u.passwordHash) {
        return Response(400, Message(MsgBadCredentials));
      }
      resp := Response(200, Session(crypto.sign(u.id, now), PublicUserOf(u)));
    }

    /** `POST /expenses`: no check on the amount's sign or the category's value. */
    method CreateExpense(uid: Id, amount: Option<real>, category: string, description: Option<string>, date: Option<Date>, now: Date)
      returns (resp: Response)
      requires Valid()
      modifies this
      ensures Valid()
      ensures users == old(users) && feedback == old(feedback)
      ensures amount.None? || category == "" ==> resp == Response(500, InternalError) && Untouched()
      ensures amount.Some? && category != "" ==>
        var e := Expense(old(nextId), uid, amount.value, category, description, DateOrNow(date, now), now);
        expenses == old(expenses) + [e] && resp == Response(201, OneExpense(e))
      ensures forall u :: u != uid ==> Filter(expenses, ExpenseOwnedBy(u)) == Filter(old(expenses), ExpenseOwnedBy(u))
    {
      if amount.None? || category == "" {
        return Response(500, InternalError);
      }
      var e := Expense(nextId, uid, amount.value, category, description, DateOrNow(date, now), now);
      forall u | u != uid ensures Filter(expenses + [e], ExpenseOwnedBy(u)) == Filter(expenses, ExpenseOwnedBy(u)) {
        FilterAppend(expenses, [e], ExpenseOwnedBy(u));
      }
      expenses := expenses + [e];
      nextId := nextId + 1;
      resp := Response(201, OneExpense(e));
    }

    /** `GET /expenses`: the caller's records, latest date first. */
    method ListExpenses(uid: Id) returns (resp: Response)
      ensures resp.status == 200 && resp.body.Expenses?
      ensures SortedDesc(resp.body.expenses, DateOf)
      ensures multiset(resp.body.expenses) == multiset(Filter(expenses, ExpenseOwnedBy(uid)))
      ensures forall i :: 0 <= i < |resp.body.expenses| ==> resp.body.expenses[i] in expenses && resp.body.expenses[i].userId == uid
      ensures forall i :: 0 <= i < |expenses| && expenses[i].userId == uid ==> expenses[i] in resp.body.expenses
    {
      var mine := Filter(expenses, ExpenseOwnedBy(uid));
      var sorted := SortDesc(mine, DateOf);
      SortDescMembers(mine, DateOf);
      resp := Response(200, Expenses(sorted));
    }

    /** `GET /expenses/stats`: total, per-category sums and count over the caller's records. */
    method ExpenseStats(uid: Id) returns (resp: Response)
      ensures resp.status == 200 && resp.body.Stats?
      ensures var mine := Filter(expenses, ExpenseOwnedBy(uid)); var s := resp.body.summary;
        && s.total == Total(mine)
        && s.count == |mine|
        && s.byCategory.Keys == Categories(mine)
        && (forall c :: c in s.byCategory ==> s.byCategory[c] == CategoryTotal(mine, c))
        && SumValues(s.byCategory) == s.total
    {
      var mine := Filter(expenses, ExpenseOwnedBy(uid));
      resp := Response(200, Stats(Summarize(mine)));
    }

    /** `PUT /expenses/:id`: matches on `(_id, userId)` only. */
    method UpdateExpense(uid: Id, id: Id, patch: Patch) returns (resp: Response)
      requires Valid()
      modifies this
      ensures Valid()
      ensures users == old(users) && feedback == old(feedback) && nextId == old(nextId)
      ensures resp.status == 404 <==> forall i :: 0 <= i < |old(expenses)| ==> !(old(expenses)[i].id == id && old(expenses)[i].userId == uid)
      ensures resp.status == 404 ==> resp == Response(404, Message(MsgExpenseNotFound)) && expenses == old(expenses)
      ensures resp.status != 404 ==> exists k :: (0 <= k < |old(expenses)| && old(expenses)[k].id == id && old(expenses)[k].userId == uid &&
        expenses == old(expenses)[k := ApplyPatch(old(expenses)[k], patch)] && resp == Response(200, OneExpense(expenses[k])))
      ensures forall u :: u != uid ==> Filter(expenses, ExpenseOwnedBy(u)) == Filter(old(expenses), ExpenseOwnedBy(u))
    {
      var k := FindIndex(expenses, ExpenseMatches(id, uid));
      if k.None? {
        return Response(404, Message(MsgExpenseNotFound));
      }
      var i := k.value;
      var updated := ApplyPatch(expenses[i], patch);
      forall u | u != uid ensures Filter(expenses[i := updated], ExpenseOwnedBy(u)) == Filter(expenses, ExpenseOwnedBy(u)) {
        FilterUpdateOutside(expenses, i, updated, ExpenseOwnedBy(u));
      }
      expenses := expenses[i := updated];
      resp := Response(200, OneExpense(updated));
    }

    /** `DELETE /expenses/:id`: matches on `(_id, userId)` only. */
    method DeleteExpense(uid: Id, id: Id) returns (resp: Response)
      requires Valid()
      modifies this
      ensures Valid()
      ensures users == old(users) && feedback == old(feedback) && nextId == old(nextId)
      ensures resp.status == 404 <==> forall i :: 0 <= i < |old(expenses)| ==> !(old(expenses)[i].id == id && old(expenses)[i].userId == uid)
      ensures resp.status == 404 ==> resp == Response(404, Message(MsgExpenseNotFound)) && expenses == old(expenses)
      ensures resp.status != 404 ==> resp == Response(200, Message(MsgExpenseDeleted)) && |expenses| == |old(expenses)| - 1
      ensures resp.status != 404 ==> exists k :: (0 <= k < |old(expenses)| && old(expenses)[k].id == id && old(expenses)[k].userId == uid &&
        expenses == old(expenses)[..k] + old(expenses)[k + 1..])
      ensures forall e :: e in expenses <==> e in old(expenses) && !(e.id == id && e.userId == uid)
      ensures forall u :: u != uid ==> Filter(expenses, ExpenseOwnedBy(u)) == Filter(old(expenses), ExpenseOwnedBy(u))
    {
      var k := FindIndex(expenses, ExpenseMatches(id, uid));
      if k.None? {
        return Response(404, Message(MsgExpenseNotFound));
      }
      var i := k.value;
      var rest := expenses[..i] + expenses[i + 1..];
      forall u | u != uid ensures Filter(rest, ExpenseOwnedBy(u)) == Filter(expenses, ExpenseOwnedBy(u)) {
        FilterRemoveOutside(expenses, i, ExpenseOwnedBy(u));
      }
      RemoveMatchingExpense(expenses, i, id, uid, nextId);
      RemoveKeepsIdsFresh(expenses, i, nextId);
      expenses := rest;
      resp := Response(200, Message(MsgExpenseDeleted));
    }

    /** `GET /profile`: the caller's user document without its password. */
    method GetProfile(uid: Id) returns (resp: Response)
      ensures resp.status == 404 <==> forall i :: 0 <= i < |users| ==> users[i].id != uid
      ensures resp.status == 404 ==> resp == Response(404, Message(MsgUserNotFound))
      ensures resp.status != 404 ==> exists i :: (0 <= i < |users| && users[i].id == uid &&
        resp == Response(200, UserProfile(ProfileOf(users[i]))))
    {
      var k := FindIndex(users, HasId(uid));
      if k.None? {
        return Response(404, Message(MsgUserNotFound));
      }
      resp := Response(200, UserProfile(ProfileOf(users[k.value])));
    }

    /** `PUT /profile`: `findByIdAndUpdate(uid, { name })`, so only the name can change. */
    method UpdateProfile(uid: Id, name: Option<string>) returns (resp: Response)
      requires Valid()
      modifies this
      ensures Valid()
      ensures expenses == old(expenses) && feedback == old(feedback) && nextId == old(nextId)
      ensures resp.status == 404 <==> forall i :: 0 <= i < |old(users)| ==> old(users)[i].id != uid
      ensures resp.status == 404 ==> resp == Response(404, Message(MsgUserNotFound)) && users == old(users)
      ensures |users| == |old(users)|
      ensures forall i :: 0 <= i < |users| ==>
        && users[i].id == old(users)[i].id
        && users[i].email == old(users)[i].email
        && users[i].passwordHash == old(users)[i].passwordHash
        && users[i].createdAt == old(users)[i].createdAt
        && users[i].name == (if users[i].id == uid then name.GetOr(old(users)[i].name) else old(users)[i].name)
      ensures resp.status != 404 ==> exists i :: (0 <= i < |users| && users[i].id == uid &&
        resp == Response(200, UserProfile(ProfileOf(users[i]))))
    {
      var k := FindIndex(users, HasId(uid));
      if k.None? {
        return Response(404, Message(MsgUserNotFound));
      }
      var i := k.value;
      var u := users[i].(name := name.GetOr(users[i].name));
      users := users[i := u];
      resp := Response(200, UserProfile(ProfileOf(u)));
    }

    /** `POST /feedback`: appended when the schema's validators accept it. */
    method SubmitFeedback(uid: Id, kind: string, message: string, now: Date) returns (resp: Response)
      requires Valid()
      modifies this
      ensures Valid()
      ensures users == old(users) && expenses == old(expenses)
      ensures !IsFeedbackKind(kind) || message == "" ==> resp == Response(500, InternalError) && Untouched()
      ensures IsFeedbackKind(kind) && message != "" ==>
        && feedback == old(feedback) + [Feedback(old(nextId), uid, kind, message, now)]
        && resp == Response(201, Message(MsgFeedbackSent))
      ensures forall u :: u != uid ==> Filter(feedback, FeedbackOwnedBy(u)) == Filter(old(feedback), FeedbackOwnedBy(u))
    {
      if !IsFeedbackKind(kind) || message == "" {
        return Response(500, InternalError);
      }
      var f := Feedback(nextId, uid, kind, message, now);
      forall u | u != uid ensures Filter(feedback + [f], FeedbackOwnedBy(u)) == Filter(feedback, FeedbackOwnedBy(u)) {
        FilterAppend(feedback, [f], FeedbackOwnedBy(u));
      }
      feedback := feedback + [f];
      nextId := nextId + 1;
      resp := Response(201, Message(MsgFeedbackSent));
    }

    /** `GET /feedback`: the caller's submissions, newest first. */
    method ListFeedback(uid: Id) returns (resp: Response)
      ensures resp.status == 200 && resp.body.Feedbacks?
      ensures SortedDesc(resp.body.feedback, FeedbackCreatedAt)
      ensures multiset(resp.body.feedback) == multiset(Filter(feedback, FeedbackOwnedBy(uid)))
      ensures forall i :: 0 <= i < |resp.body.feedback| ==> resp.body.feedback[i].userId == uid
    {
      var mine := Filter(feedback, FeedbackOwnedBy(uid));
      var sorted := SortDesc(mine, FeedbackCreatedAt);
      SortDescMembers(mine, FeedbackCreatedAt);
      resp := Response(200, Feedbacks(sorted));
    }

    /** Routing: the access guard runs before every protected handler, and a
        request bound to a caller never changes another user's records. */
    method Serve(header: Option<string>, req: Request, now: Date) returns (resp: Response)
      requires Valid()
      modifies this
      ensures Valid()
      ensures IsProtected(req) && Guard(header, crypto.verify, now).Missing? ==>
        resp == Response(401, Message(MsgAuthRequired)) && Untouched()
      ensures IsProtected(req) && Guard(header, crypto.verify, now).Invalid? ==>
        resp == Response(401, Message(MsgInvalidToken)) && Untouched()
      ensures !IsProtected(req) ==> expenses == old(expenses) && feedback == old(feedback)
      ensures IsProtected(req) && Guard(header, crypto.verify, now).Granted? ==>
        var uid := Guard(header, crypto.verify, now).userId;
        && (forall u :: u != uid ==> Filter(expenses, ExpenseOwnedBy(u)) == Filter(old(expenses), ExpenseOwnedBy(u)))
        && (forall u :: u != uid ==> Filter(feedback, FeedbackOwnedBy(u)) == Filter(old(feedback), FeedbackOwnedBy(u)))
        && |users| == |old(users)|
        && (forall i :: 0 <= i < |users| && old(users)[i].id != uid ==> users[i] == old(users)[i])
    {
      var uid: Id := 0;
      if IsProtected(req) {
        match Guard(header, crypto.verify, now)
        case Missing =>
          return Response(401, Message(MsgAuthRequired));
        case Invalid =>
          return Response(401, Message(MsgInvalidToken));
        case Granted(id) =>
          uid := id;
      }
      match req
      case Register(email, password, name) =>
        resp := Register(email, password, name, now);
      case Login(email, password) =>
        resp := Login(email, password, now);
      case HealthCheck =>
        resp := Response(200, Health("OK", "QuotiDepnse API is running"));
      case CreateExpense(amount, category, description, date) =>
        resp := CreateExpense(uid, amount, category, description, date, now);
      case ListExpenses =>
        resp := ListExpenses(uid);
      case ExpenseStats =>
        resp := ExpenseStats(uid);
      case UpdateExpense(id, patch) =>
        resp := UpdateExpense(uid, id, patch);
      case DeleteExpense(id) =>
        resp := DeleteExpense(uid, id);
      case GetProfile =>
        resp := GetProfile(uid);
      case UpdateProfile(name) =>
        resp := UpdateProfile(uid, name);
      case SubmitFeedback(kind, message) =>
        resp := SubmitFeedback(uid, kind, message, now);
      case ListFeedback =>
        resp := ListFeedback(uid);
    }
  }
}
