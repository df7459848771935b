/** The three collections of the service (users, expenses, feedback) as
    records, and the two public views of a user that responses carry. */
module Records {
  import opened Seqs

  /** A MongoDB ObjectId, kept opaque. */
  type Id = nat

  /** A JavaScript `Date`, as milliseconds since the epoch. */
  type Date = int

  datatype User = User(id: Id, email: string, passwordHash: string, name: string, createdAt: Date)

  /** Amounts are exact reals: the model does not reproduce IEEE double rounding. */
  datatype Expense = Expense(
    id: Id,
    userId: Id,
    amount: real,
    category: string,
    description: Option<string>,
    date: Date,
    createdAt: Date)

  datatype Feedback = Feedback(id: Id, userId: Id, kind: string, message: string, createdAt: Date)

  /** The `enum` of the feedback schema's `type` field. */
  const FeedbackKinds: seq<string> := ["bug", "feature", "improvement", "other"]

  predicate IsFeedbackKind(k: string)
  {
    k in FeedbackKinds
  }

  /** The `user` object of the register and login responses: id, email and name. */
  datatype PublicUser = PublicUser(id: Id, email: string, name: string)

  /** A user document with its password deselected (`select('-password')`). */
  datatype Profile = Profile(id: Id, email: string, name: string, createdAt: Date)

  function PublicUserOf(u: User): PublicUser
  {
    PublicUser(u.id, u.email, u.name)
  }

  function ProfileOf(u: User): Profile
  {
    Profile(u.id, u.email, u.name, u.createdAt)
  }

  /** The query filter `{ userId }` on the expense collection. */
  function ExpenseOwnedBy(uid: Id): Expense -> bool
  {
    (e: Expense) => e.userId == uid
  }

  /** The query filter `{ userId }` on the feedback collection. */
  function FeedbackOwnedBy(uid: Id): Feedback -> bool
  {
    (f: Feedback) => f.userId == uid
  }

  /** The query filter `{ _id, userId }` used by update and delete. */
  function ExpenseMatches(id: Id, uid: Id): Expense -> bool
  {
    (e: Expense) => e.id == id && e.userId == uid
  }

  /** The query filter `{ email }` on the user collection. */
  function HasEmail(email: string): User -> bool
  {
    (u: User) => u.email == email
  }

  /** `findById(id)` on the user collection. */
  function HasId(id: Id): User -> bool
  {
    (u: User) => u.id == id
  }

  /** At most one user per email: the `unique` index on `email`. */
  ghost predicate UniqueEmails(us: seq<User>)
  {
    forall i, j :: 0 <= i < j < |us| ==> us[i].email != us[j].email
  }

  /** Every document of a collection has its own `_id`, all of them below `next`. */
  ghost predicate UserIdsFresh(us: seq<User>, next: Id)
  {
    (forall i :: 0 <= i < |us| ==> us[i].id < next)
    && (forall i, j :: 0 <= i < j < |us| ==> us[i].id != us[j].id)
  }

  ghost predicate ExpenseIdsFresh(es: seq<Expense>, next: Id)
  {
    (forall i :: 0 <= i < |es| ==> es[i].id < next)
    && (forall i, j :: 0 <= i < j < |es| ==> es[i].id != es[j].id)
  }

  ghost predicate FeedbackIdsFresh(fs: seq<Feedback>, next: Id)
  {
    (forall i :: 0 <= i < |fs| ==> fs[i].id < next)
    && (forall i, j :: 0 <= i < j < |fs| ==> fs[i].id != fs[j].id)
  }

  /** What the feedback schema's validators let through: a `type` from the enum and a non-empty message. */
  ghost predicate FeedbackValid(fs: seq<Feedback>)
  {
    forall i :: 0 <= i < |fs| ==> IsFeedbackKind(fs[i].kind) && fs[i].message != ""
  }

  function DateOf(e: Expense): int
  {
    e.date
  }

  function FeedbackCreatedAt(f: Feedback): int
  {
    f.createdAt
  }
}
