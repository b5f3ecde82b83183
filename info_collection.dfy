/** The contact-details step. The page keeps `formData` in component state,
    updates one field per keystroke, and on submit runs five checks in a
    fixed order, stopping at the first that fails with a toast. Only when
    all pass does it store the form, as entered, under `userInfo` and move
    on to `/submission`. The page uses the same validators and storage
    adapter as the shared library (its local copies are the same code). */
module InfoCollection {
  import opened Base
  import opened Text
  import opened Validation
  import opened Records
  import opened Storage


  /** The checks of `handleSubmit`, named by the notice each shows when it
      fails, in the order it runs them. */
  const CheckOrder: seq<Notice> := [NameMissing, EmailMissing, EmailInvalid, PhoneMissing, PhoneInvalid]

  /** Whether `f` fails each check, in `CheckOrder`'s order; "missing"
      means blank after `trim()`. */
  function Verdicts(f: ContactInfo): (v: seq<bool>)
    ensures |v| == |CheckOrder|
  {
    [ IsBlank(f.fullName),
      IsBlank(f.email),
      !IsValidEmail(f.email),
      IsBlank(f.phone),
      !IsValidPhone(f.phone) ]
  }

  /** The failure `handleSubmit` reports for `f`: the checks run in
      `CheckOrder`'s order and the first that fails is reported. */
  function Rejection(f: ContactInfo): (r: Option<Notice>)
    ensures r.Some? ==> r.value in CheckOrder
  {
    if IsBlank(f.fullName) then Some(NameMissing)
    else if IsBlank(f.email) then Some(EmailMissing)
    else if !IsValidEmail(f.email) then Some(EmailInvalid)
    else if IsBlank(f.phone) then Some(PhoneMissing)
    else if !IsValidPhone(f.phone) then Some(PhoneInvalid)
    else None
  }

  /** `FirstIndex` on five booleans, case by case. */
  lemma FirstIndexOfFive(a: bool, b: bool, c: bool, d: bool, e: bool)
    ensures FirstIndex([a, b, c, d, e])
            == if a then 0 else if b then 1 else if c then 2 else if d then 3 else if e then 4 else 5
  {
    var v := [a, b, c, d, e];
    assert v[1..] == [b, c, d, e];
    assert v[2..] == [c, d, e];
    assert v[3..] == [d, e];
    assert v[4..] == [e];
    assert v[5..] == [];
    assert FirstIndex(v[5..]) == 0;
    assert FirstIndex(v[4..]) == if e then 0 else 1;
    assert FirstIndex(v[3..]) == if d then 0 else 1 + FirstIndex(v[4..]);
    assert FirstIndex(v[2..]) == if c then 0 else 1 + FirstIndex(v[3..]);
    assert FirstIndex(v[1..]) == if b then 0 else 1 + FirstIndex(v[2..]);
  }

  /** The reported failure is the first failed check of `CheckOrder`, or
      none when every check passes. */
  lemma RejectionIsFirstFailure(f: ContactInfo)
    ensures var k := FirstIndex(Verdicts(f));
            Rejection(f) == if k < |CheckOrder| then Some(CheckOrder[k]) else None
  {
    var v := Verdicts(f);
    FirstIndexOfFive(v[0], v[1], v[2], v[3], v[4]);
    assert v == [v[0], v[1], v[2], v[3], v[4]];
  }

  /** `FirstIndex(v)` is `i` exactly when `v[i]` is the first `true`. */
  lemma FirstIndexAt(v: seq<bool>, i: nat)
    requires i < |v|
    ensures FirstIndex(v) == i <==> v[i] && forall j :: 0 <= j < i ==> !v[j]
  {
  }

  /** No check appears twice in `CheckOrder`. */
  lemma ChecksAreDistinct(i: nat, k: nat)
    requires i < |CheckOrder| && k < |CheckOrder|
    ensures CheckOrder[i] == CheckOrder[k] ==> i == k
  {
  }

  /** Check number i is the one reported exactly when `f` fails it and
      passes every check before it; later checks then play no part. */
  lemma ReportedCheckIsFirstFailure(f: ContactInfo, i: nat)
    requires i < |CheckOrder|
    ensures Rejection(f) == Some(CheckOrder[i])
            <==> Verdicts(f)[i] && forall j :: 0 <= j < i ==> !Verdicts(f)[j]
  {
    var v := Verdicts(f);
    RejectionIsFirstFailure(f);
    FirstIndexAt(v, i);
    var k := FirstIndex(v);
    if Rejection(f) == Some(CheckOrder[i]) {
      ChecksAreDistinct(i, k);
    }
  }

  /** A form is accepted exactly when its name is not blank, its email is
      valid (which makes it non-blank) and its phone is valid and not blank:
      the email's "missing" check is subsumed by its validity check, the
      phone's is not. */
  lemma AcceptedIffValid(f: ContactInfo)
    ensures Rejection(f).None?
            <==> !IsBlank(f.fullName) && IsValidEmail(f.email) && !IsBlank(f.phone) && IsValidPhone(f.phone)
  {
    if IsValidEmail(f.email) {
      ValidEmailIsNotBlank(f.email);
    }
  }

  /** A whitespace-only field is reported as missing, never as invalid,
      once the checks before it pass. */
  lemma WhitespaceOnlyIsMissing(f: ContactInfo)
    ensures AllWhitespace(f.fullName) ==> Rejection(f) == Some(NameMissing)
    ensures !IsBlank(f.fullName) && AllWhitespace(f.email) ==> Rejection(f) == Some(EmailMissing)
    ensures !IsBlank(f.fullName) && IsValidEmail(f.email) && AllWhitespace(f.phone)
            ==> Rejection(f) == Some(PhoneMissing)
  {
    BlankIffAllWhitespace(f.fullName);
    BlankIffAllWhitespace(f.email);
    BlankIffAllWhitespace(f.phone);
    if IsValidEmail(f.email) {
      ValidEmailIsNotBlank(f.email);
    }
  }

  /** A phone of seven or more whitespace characters satisfies the phone
      pattern, yet it is reported as missing, because the blank check runs
      first. */
  lemma SpacePhoneReportedMissing(name: string, email: string, phone: string)
    requires !IsBlank(name) && IsValidEmail(email)
    requires |phone| >= 7 && AllWhitespace(phone)
    ensures IsValidPhone(phone)
    ensures Rejection(ContactInfo(name, email, phone)) == Some(PhoneMissing)
  {
    assert phone[0] != '+' by { assert IsWhitespace(phone[0]); }
    BlankIffAllWhitespace(phone);
    ValidEmailIsNotBlank(email);
  }

  /** An email with whitespace anywhere in it (around it or inside) that is
      not all whitespace is not blank, so it passes the missing check, and
      then fails validation: once the name passes, it is reported invalid. */
  lemma PaddedEmailReportedInvalid(name: string, email: string, phone: string)
    requires !IsBlank(name)
    requires exists k :: 0 <= k < |email| && IsWhitespace(email[k])
    requires exists k :: 0 <= k < |email| && !IsWhitespace(email[k])
    ensures !IsBlank(email)
    ensures Rejection(ContactInfo(name, email, phone)) == Some(EmailInvalid)
  {
    BlankIffAllWhitespace(email);
    EmailNeedsAtAndNoWhitespace(email);
  }

  /** The contact-details page: its form state and the shared store. */
  class InfoCollectionPage {
    var formData: ContactInfo
    const store: SafeStorage

    constructor (store: SafeStorage)
      ensures formData == ContactInfo("", "", "") && this.store == store
    {
      formData := ContactInfo("", "", "");
      this.store := store;
    }

    /** `handleInputChange(field, value)`. */
    method HandleInputChange(field: ContactField, value: string)
      modifies this`formData
      ensures formData == old(formData).Update(field, value)
    {
      formData := formData.Update(field, value);
    }

    /** Stores the form, serialised, under `userInfo`. */
    method SaveContact()
      modifies store`items
      ensures store.State() == Set(old(store.State()), UserInfoKey, EncodeContact(formData))
    {
      store.SetItem(UserInfoKey, EncodeContact(formData));
    }

    /** `handleSubmit`: the first failed check's toast and nothing else, or
        the form stored under `userInfo` exactly as entered followed by a
        navigation to `/submission`. The checks read the form as it was
        when the submit began. */
    method HandleSubmit() returns (effects: seq<Effect>)
      modifies store`items
      ensures Rejection(old(formData)).Some? ==>
                effects == [Toast(Rejection(old(formData)).value)] && store.State() == old(store.State())
      ensures Rejection(old(formData)).None? ==>
                && effects == [Navigate(SubmissionRoute)]
                && store.State() == Set(old(store.State()), UserInfoKey, EncodeContact(formData))
    {
      ghost var verdict := Rejection(formData);
      if IsBlank(formData.fullName) {
        assert verdict == Some(NameMissing);
        return [Toast(NameMissing)];
      }
      if IsBlank(formData.email) {
        assert verdict == Some(EmailMissing);
        return [Toast(EmailMissing)];
      }
      if !IsValidEmail(formData.email) {
        assert verdict == Some(EmailInvalid);
        return [Toast(EmailInvalid)];
      }
      if IsBlank(formData.phone) {
        assert verdict == Some(PhoneMissing);
        return [Toast(PhoneMissing)];
      }
      if !IsValidPhone(formData.phone) {
        assert verdict == Some(PhoneInvalid);
        return [Toast(PhoneInvalid)];
      }
      assert verdict == None;
      SaveContact();
      effects := [Navigate(SubmissionRoute)];
    }
  }
}
