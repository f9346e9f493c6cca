/**
 * The change-password settings screen: three password fields, the validation that fills one
 * error message per field, and the save that leaves the screen only on a valid form.
 */
module ChangePassword {
  import opened Wrappers

  const EnterCurrent := "Enter your current password."
  const EnterNew := "Enter a new password."
  const TooWeak := "Use 8+ chars with upper/lowercase, number, and symbol."
  const MustDiffer := "New password must be different from current."
  const Retype := "Retype your new password."
  const Mismatch := "Passwords do not match."

  predicate IsLower(c: char) { 'a' <= c <= 'z' }
  predicate IsUpper(c: char) { 'A' <= c <= 'Z' }
  predicate IsDigit(c: char) { '0' <= c <= '9' }
  predicate IsAlphanumeric(c: char) { IsLower(c) || IsUpper(c) || IsDigit(c) }

  /** The distinct characters of pw. */
  function Chars(pw: string): set<char> {
    set i | 0 <= i < |pw| :: pw[i]
  }

  /** Four characters of four different kinds are four distinct characters of pw. */
  lemma FourKindsFourChars(pw: string, a: nat, b: nat, c: nat, d: nat)
    requires a < |pw| && b < |pw| && c < |pw| && d < |pw|
    requires IsLower(pw[a]) && IsUpper(pw[b]) && IsDigit(pw[c]) && !IsAlphanumeric(pw[d])
    ensures |Chars(pw)| >= 4
  {
    var four := {pw[a], pw[b], pw[c], pw[d]};
    assert |{pw[a], pw[b]}| == 2;
    assert |{pw[a], pw[b], pw[c]}| == 3;
    assert |four| == 4;
    var all := Chars(pw);
    assert four <= all;
    assert all == (all - four) + four;
    assert |all| == |all - four| + |four|;
  }

  /**
   * `/[a-z]/`, `/[A-Z]/`, `/\d/` and `/[^A-Za-z0-9]/` all match, and there are at least 8
   * characters; a password that passes therefore has at least four distinct characters.
   */
  function Strong(pw: string): (ok: bool)
    ensures ok ==> |pw| >= 8 && |Chars(pw)| >= 4
  {
    var kinds :=
      (exists i :: 0 <= i < |pw| && IsLower(pw[i])) &&
      (exists i :: 0 <= i < |pw| && IsUpper(pw[i])) &&
      (exists i :: 0 <= i < |pw| && IsDigit(pw[i])) &&
      (exists i :: 0 <= i < |pw| && !IsAlphanumeric(pw[i]));
    assert kinds ==> |Chars(pw)| >= 4 by {
      if kinds {
        var a :| 0 <= a < |pw| && IsLower(pw[a]);
        var b :| 0 <= b < |pw| && IsUpper(pw[b]);
        var c :| 0 <= c < |pw| && IsDigit(pw[c]);
        var d :| 0 <= d < |pw| && !IsAlphanumeric(pw[d]);
        FourKindsFourChars(pw, a, b, c, d);
      }
    }
    kinds && |pw| >= 8
  }

  /** A password with every kind of character passes; one without a symbol or an upper-case letter does not. */
  lemma StrongExamples()
    ensures Strong("Passw0rd!")
    ensures !Strong("Password1") && !Strong("passw0rd!") && !Strong("Pw0!")
  {
    var s := "Passw0rd!";
    assert IsUpper(s[0]) && IsLower(s[1]) && IsDigit(s[5]) && !IsAlphanumeric(s[8]);
    var t := "Password1";
    assert forall i :: 0 <= i < |t| ==> IsAlphanumeric(t[i]);
    var u := "passw0rd!";
    assert forall i :: 0 <= i < |u| ==> !IsUpper(u[i]);
  }

  /** The three messages shown under the fields; None where a field shows none. */
  datatype Errors = Errors(current: Option<string>, next: Option<string>, confirm: Option<string>)

  predicate Clean(e: Errors) {
    e.current.None? && e.next.None? && e.confirm.None?
  }

  /**
   * The messages validate leaves: one per empty field; for a new password that is weak and also
   * equal to the current one, the later "must be different" message replaces the weakness one; a
   * mismatch is reported only when both new fields are filled.
   */
  function ExpectedErrors(current: string, next: string, confirm: string): (e: Errors)
    ensures e.current.None? <==> current != ""
    ensures e.current.Some? ==> e.current.value == EnterCurrent
    ensures next == "" ==> e.next == Some(EnterNew)
    ensures next != "" && current != "" && next == current ==> e.next == Some(MustDiffer)
    ensures e.next.None? <==> next != "" && Strong(next) && next != current
    ensures confirm == "" ==> e.confirm == Some(Retype)
    ensures e.confirm.None? <==> confirm != "" && (next == "" || confirm == next)
  {
    Errors(
      if current == "" then Some(EnterCurrent) else None,
      if next == "" then Some(EnterNew)
      else if current != "" && next == current then Some(MustDiffer)
      else if !Strong(next) then Some(TooWeak)
      else None,
      if confirm == "" then Some(Retype)
      else if next != "" && confirm != next then Some(Mismatch)
      else None)
  }

  /**
   * The form is valid exactly when the current password is filled, the new one is filled, strong
   * and different from it, and the retyped one is filled and equal to the new one.
   */
  lemma ValidIff(current: string, next: string, confirm: string)
    ensures Clean(ExpectedErrors(current, next, confirm)) <==>
              current != "" && next != "" && Strong(next) && next != current && confirm != "" && confirm == next
  {
  }

  /** An empty new password with a filled retype field reports no mismatch, only the missing password. */
  lemma EmptyNewHidesMismatch(current: string, confirm: string)
    requires confirm != ""
    ensures ExpectedErrors(current, "", confirm).confirm == None
    ensures ExpectedErrors(current, "", confirm).next == Some(EnterNew)
  {
  }

  class ChangePasswordScreen {
    var current: string
    var nextPw: string
    var confirm: string
    var errCur: Option<string>
    var errNext: Option<string>
    var errConf: Option<string>
    /** The number of router.back() calls so far. */
    var backCalls: nat

    constructor ()
      ensures current == "" && nextPw == "" && confirm == ""
      ensures errCur == None && errNext == None && errConf == None && backCalls == 0
    {
      current := "";
      nextPw := "";
      confirm := "";
      errCur := None;
      errNext := None;
      errConf := None;
      backCalls := 0;
    }

    function Shown(): Errors
      reads this
    {
      Errors(errCur, errNext, errConf)
    }

    method SetCurrent(v: string)
      modifies this`current
      ensures current == v
    {
      current := v;
    }

    method SetNext(v: string)
      modifies this`nextPw
      ensures nextPw == v
    {
      nextPw := v;
    }

    method SetConfirm(v: string)
      modifies this`confirm
      ensures confirm == v
    {
      confirm := v;
    }

    /**
     * validate: clears the three messages, then sets each one its checks call for, and answers
     * whether none was set.
     */
    method Validate() returns (ok: bool)
      modifies this`errCur, this`errNext, this`errConf
      ensures Shown() == ExpectedErrors(current, nextPw, confirm)
      ensures ok <==> Clean(Shown())
    {
      ok := true;
      errCur, errNext, errConf := None, None, None;
      if current == "" {
        errCur := Some(EnterCurrent);
        ok := false;
      }
      if nextPw == "" {
        errNext := Some(EnterNew);
        ok := false;
      } else {
        var strong := Strong(nextPw);
        if !strong {
          errNext := Some(TooWeak);
          ok := false;
        }
        if current != "" && nextPw == current {
          errNext := Some(MustDiffer);
          ok := false;
        }
      }
      if confirm == "" {
        errConf := Some(Retype);
        ok := false;
      } else if nextPw != "" && confirm != nextPw {
        errConf := Some(Mismatch);
        ok := false;
      }
    }

    /** onSave: leaves the screen once, and only when the form is valid. */
    method OnSave() returns (ok: bool)
      modifies this`errCur, this`errNext, this`errConf, this`backCalls
      ensures Shown() == ExpectedErrors(current, nextPw, confirm)
      ensures ok <==> current != "" && nextPw != "" && Strong(nextPw) && nextPw != current && confirm == nextPw
      ensures backCalls == old(backCalls) + (if ok then 1 else 0)
    {
      ok := Validate();
      ValidIff(current, nextPw, confirm);
      if ok {
        backCalls := backCalls + 1;
      }
    }
  }
}
