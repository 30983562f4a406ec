/** The sign-up form (`RegisterForm`): the role selector's state and the
    submit handler, which refuses to go on unless the terms box is ticked
    and otherwise builds the record to send. */
module RegisterForm {
  import opened Wrappers

  datatype UserRole = Estudiante | Propietario

  /** The text entries of the submitted form, in document order; a form may
      hold several entries under one name. */
  type FormEntries = seq<(string, string)>

  /** `formData.get(name)`: the value of the first entry with that name, or
      `null` when there is none. */
  function FormGet(entries: FormEntries, name: string): (v: Option<string>)
    ensures v.None? <==> forall k :: 0 <= k < |entries| ==> entries[k].0 != name
    ensures v.Some? ==> exists i :: 0 <= i < |entries| && entries[i] == (name, v.value)
                           && forall k :: 0 <= k < i ==> entries[k].0 != name
  {
    if entries == [] then None
    else if entries[0].0 == name then Some(entries[0].1)
    else
      var rest := FormGet(entries[1..], name);
      assert forall k :: 1 <= k < |entries| ==> entries[k] == entries[1..][k - 1];
      rest
  }

  /** The record read off the form, with the selected role. */
  datatype RegisterFormData = RegisterFormData(
    name: Option<string>,
    lastName: Option<string>,
    phone: Option<string>,
    rol: UserRole,
    email: Option<string>,
    password: Option<string>,
    acceptTerms: bool)

  /** What is sent: the read record without `acceptTerms`. */
  datatype SubmitData = SubmitData(
    name: Option<string>,
    lastName: Option<string>,
    phone: Option<string>,
    rol: UserRole,
    email: Option<string>,
    password: Option<string>)

  datatype SubmitOutcome = TermsRejected(message: string) | Submitted(data: SubmitData)

  const TermsMessage := "Debes aceptar los términos y condiciones"

  /** `acceptTerms`: the check box's value is exactly `'on'`. */
  predicate AcceptsTerms(entries: FormEntries) {
    FormGet(entries, "acceptTerms") == Some("on")
  }

  /** `handleSubmit` while `role` is selected. */
  function Submission(role: UserRole, entries: FormEntries): (o: SubmitOutcome)
    ensures o.TermsRejected? <==> !AcceptsTerms(entries)
    ensures o.TermsRejected? ==> o.message == TermsMessage
    ensures o.Submitted? ==>
      && o.data.rol == role
      && o.data.name == FormGet(entries, "name")
      && o.data.lastName == FormGet(entries, "lastName")
      && o.data.phone == FormGet(entries, "phone")
      && o.data.email == FormGet(entries, "email")
      && o.data.password == FormGet(entries, "password")
  {
    var data := RegisterFormData(
      FormGet(entries, "name"), FormGet(entries, "lastName"), FormGet(entries, "phone"), role,
      FormGet(entries, "email"), FormGet(entries, "password"),
      FormGet(entries, "acceptTerms") == Some("on"));
    if !data.acceptTerms then TermsRejected(TermsMessage)
    else Submitted(SubmitData(data.name, data.lastName, data.phone, data.rol, data.email, data.password))
  }

  /** An entry appended under another name does not change a lookup. */
  lemma {:induction false} FormGetIgnoresOtherNames(entries: FormEntries, extra: (string, string), name: string)
    requires extra.0 != name
    ensures FormGet(entries + [extra], name) == FormGet(entries, name)
  {
    if entries != [] {
      assert (entries + [extra])[1..] == entries[1..] + [extra];
      FormGetIgnoresOtherNames(entries[1..], extra, name);
    }
  }

  /** The first entry under a name wins: later entries never change it. */
  lemma {:induction false} FormGetFirstWins(entries: FormEntries, more: FormEntries, name: string)
    requires FormGet(entries, name).Some?
    ensures FormGet(entries + more, name) == FormGet(entries, name)
  {
    if entries[0].0 != name {
      assert (entries + more)[1..] == entries[1..] + more;
      FormGetFirstWins(entries[1..], more, name);
    }
  }

  /** The role sent is the selected one: a form field called `rol` is
      never read. */
  lemma RoleFieldIsIgnored(role: UserRole, entries: FormEntries, value: string)
    ensures Submission(role, entries + [("rol", value)]) == Submission(role, entries)
  {
    FormGetIgnoresOtherNames(entries, ("rol", value), "acceptTerms");
    FormGetIgnoresOtherNames(entries, ("rol", value), "name");
    FormGetIgnoresOtherNames(entries, ("rol", value), "lastName");
    FormGetIgnoresOtherNames(entries, ("rol", value), "phone");
    FormGetIgnoresOtherNames(entries, ("rol", value), "email");
    FormGetIgnoresOtherNames(entries, ("rol", value), "password");
  }

  /** The terms box must be ticked: a form without the box, or with any
      value other than `'on'`, is refused. */
  lemma TermsGate(role: UserRole, entries: FormEntries, value: string)
    requires value != "on"
    requires forall k :: 0 <= k < |entries| ==> entries[k].0 != "acceptTerms"
    ensures Submission(role, entries).TermsRejected?
    ensures Submission(role, [("acceptTerms", value)] + entries).TermsRejected?
    ensures Submission(role, [("acceptTerms", "on")] + entries).Submitted?
  {
  }

  /** The role selector's state. */
  class Registration {
    var selectedRole: UserRole

    constructor ()
      ensures selectedRole == Estudiante
    {
      selectedRole := Estudiante;
    }

    /** `handleRoleChange`: a cleared selection is ignored. */
    method HandleRoleChange(newValue: Option<UserRole>)
      modifies this
      ensures newValue.None? ==> selectedRole == old(selectedRole)
      ensures newValue.Some? ==> selectedRole == newValue.value
    {
      if newValue.Some? {
        selectedRole := newValue.value;
      }
    }
  }
}
