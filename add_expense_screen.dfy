/** The add/edit expense form: its initial state, the amount guard of
    `handleSubmit`, and the one API call a valid submission issues. The
    network call is external: its outcome is a parameter. */
module AddExpenseScreen {
  import opened Seqs
  import opened Records

  /** The categories the form offers. */
  const FormCategories: seq<string> := ["Nourriture", "Transport", "Loisirs", "Santé", "Logement", "Autre"]

  const DefaultCategory: string := "Nourriture"

  const MsgAmountMissing: string := "Veuillez entrer un montant"
  const MsgAmountInvalid: string := "Veuillez entrer un montant valide"

  /** The form's three text fields. */
  datatype Form = Form(amount: string, category: string, description: string)

  /** The `useState` initialisers: `editingExpense?.x || default` for each field;
      `show` is `Number.prototype.toString`. */
  function InitialForm(editing: Option<Expense>, show: real -> string): (r: Form)
    ensures editing.None? ==> r == Form("", DefaultCategory, "")
    ensures editing.Some? && editing.value.category != "" ==> r.category == editing.value.category
    ensures editing.Some? && editing.value.category == "" ==> r.category == DefaultCategory
    ensures editing.Some? ==> r.amount == show(editing.value.amount)
    ensures editing.Some? && editing.value.description.Some? ==> r.description == editing.value.description.value
    ensures editing.Some? && editing.value.description.None? ==> r.description == ""
    ensures r.category != ""
  {
    match editing
    case None => Form("", DefaultCategory, "")
    case Some(e) =>
      Form(
        show(e.amount),
        if e.category != "" then e.category else DefaultCategory,
        e.description.GetOr(""))
  }

  datatype AmountCheck = Accepted(value: real) | Rejected(message: string)

  /** The guard of `handleSubmit`: a non-empty text whose `parseFloat` is a
      number greater than 0. `parse` answers `None` where `parseFloat` gives NaN. */
  function CheckAmount(text: string, parse: string -> Option<real>): (r: AmountCheck)
    ensures r.Accepted? <==> text != "" && parse(text).Some? && parse(text).value > 0.0
    ensures r.Accepted? ==> r.value == parse(text).value && r.value > 0.0
    ensures text == "" ==> r == Rejected(MsgAmountMissing)
    ensures text != "" && !r.Accepted? ==> r == Rejected(MsgAmountInvalid)
  {
    if text == "" then Rejected(MsgAmountMissing)
    else match parse(text)
      case None => Rejected(MsgAmountInvalid)
      case Some(v) => if v <= 0.0 then Rejected(MsgAmountInvalid) else Accepted(v)
  }

  /** The body the form sends: it never carries a date. */
  datatype Payload = Payload(amount: real, category: string, description: string)

  datatype Call = Create(payload: Payload) | Update(id: Id, payload: Payload)

  /** A call as it left the form, with the `loading` flag shown meanwhile. */
  datatype Sent = Sent(call: Call, loadingDuringCall: bool)

  datatype Alert = Alert(title: string, text: string)

  /** The alert `handleSubmit` ends with after a call. */
  function Outcome(editing: bool, succeeded: bool): (r: Alert)
    ensures r.title == "Succès" <==> succeeded
    ensures r.text in {"Dépense modifiée avec succès", "Impossible de modifier la dépense"} <==> editing
  {
    if succeeded then
      Alert("Succès", if editing then "Dépense modifiée avec succès" else "Dépense ajoutée avec succès")
    else
      Alert("Erreur", if editing then "Impossible de modifier la dépense" else "Impossible d'ajouter la dépense")
  }

  class Screen {
    /** `route.params.expense`, present in edit mode. */
    const editing: Option<Expense>
    var form: Form
    var loading: bool
    /** Every API call issued, in order. */
    var sent: seq<Sent>

    constructor (editing: Option<Expense>, show: real -> string)
      ensures this.editing == editing
      ensures form == InitialForm(editing, show)
      ensures !loading && sent == []
    {
      this.editing := editing;
      form := InitialForm(editing, show);
      loading := false;
      sent := [];
    }

    /** The amount text box (`onChangeText={setAmount}`). */
    method EditAmount(text: string)
      modifies this
      ensures form == old(form).(amount := text)
      ensures loading == old(loading) && sent == old(sent)
    {
      form := form.(amount := text);
    }

    /** Pressing the `i`-th category button (`setCategory(cat)`). */
    method SelectCategory(i: nat)
      requires i < |FormCategories|
      modifies this
      ensures form == old(form).(category := FormCategories[i])
      ensures loading == old(loading) && sent == old(sent)
    {
      form := form.(category := FormCategories[i]);
    }

    /** The description text box (`onChangeText={setDescription}`). */
    method EditDescription(text: string)
      modifies this
      ensures form == old(form).(description := text)
      ensures loading == old(loading) && sent == old(sent)
    {
      form := form.(description := text);
    }

    /** `handleSubmit`: a rejected amount issues nothing; otherwise exactly one
        create, or in edit mode one update of the edited expense, is issued
        while `loading` is true, and `loading` is false afterwards whatever
        the call's outcome. */
    method Submit(parse: string -> Option<real>, succeeded: bool) returns (alert: Alert)
      requires !loading
      modifies this
      ensures form == old(form) && !loading
      ensures CheckAmount(form.amount, parse).Rejected? ==>
        sent == old(sent) && alert == Alert("Erreur", CheckAmount(form.amount, parse).message)
      ensures CheckAmount(form.amount, parse).Accepted? ==>
        var p := Payload(CheckAmount(form.amount, parse).value, form.category, form.description);
        && sent == old(sent) + [Sent(if editing.Some? then Update(editing.value.id, p) else Create(p), true)]
        && alert == Outcome(editing.Some?, succeeded)
    {
      var check := CheckAmount(form.amount, parse);
      if check.Rejected? {
        return Alert("Erreur", check.message);
      }
      loading := true;
      var payload := Payload(check.value, form.category, form.description);
      if editing.Some? {
        sent := sent + [Sent(Update(editing.value.id, payload), loading)];
      } else {
        sent := sent + [Sent(Create(payload), loading)];
      }
      alert := Outcome(editing.Some?, succeeded);
      loading := false;
    }
  }
}
