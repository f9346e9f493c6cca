/**
 * The account-information settings screen: the form loaded from the profile, its avatar
 * initials, the date text it writes, and the save that updates the profile locally first.
 */
module AccountInformation {
  import opened Wrappers
  import opened JsText
  import opened Api
  import opened DateText
  import opened ProfileSlice

  /** The avatar text when neither name gives a letter. */
  const DefaultInitials := "SK"

  /** The first character of the trimmed name, upper-cased; "" for a blank name. */
  function Initial(name: string): (r: string)
    ensures IsBlank(name) <==> r == ""
    ensures r != "" ==> r == [UpperChar(Trim(name)[0])]
  {
    ToUpper(CharAt0(Trim(name)))
  }

  /** initials: the two initials, or the default when both names are blank. */
  function Initials(firstName: string, lastName: string): (r: string)
    ensures IsBlank(firstName) && IsBlank(lastName) ==> r == DefaultInitials
    ensures !(IsBlank(firstName) && IsBlank(lastName)) ==>
              |r| == (if IsBlank(firstName) then 0 else 1) + (if IsBlank(lastName) then 0 else 1)
    ensures !IsBlank(firstName) ==> r[0] == UpperChar(Trim(firstName)[0])
    ensures !IsBlank(lastName) ==> r[|r| - 1] == UpperChar(Trim(lastName)[0])
  {
    var s := Initial(firstName) + Initial(lastName);
    if s == "" then DefaultInitials else s
  }

  /** formatDate: "" without a date, otherwise the MM/DD/YYYY text. */
  function FormatDate(d: Option<JsDate>): (r: string)
    ensures d.None? ==> r == ""
    ensures d.Some? ==> r == FormatMDY(d.value)
    ensures d.Some? && d.value.Date? && 0 <= d.value.month < 12 && 1 <= d.value.day ==> r != ""
  {
    match d
    case None => ""
    case Some(date) => FormatMDY(date)
  }

  /** canSave */
  function CanSave(firstName: string, lastName: string, isLoading: bool, saving: bool): (r: bool)
    ensures r <==> !IsBlank(firstName) && !IsBlank(lastName) && !isLoading && !saving
  {
    Trim(firstName) != "" && Trim(lastName) != "" && !isLoading && !saving
  }

  /** The updates object of onSave; a missing birth date is undefined. */
  datatype ProfileUpdates = ProfileUpdates(firstName: string, lastName: string, gender: string, birthDate: Option<string>)

  function SaveUpdates(firstName: string, lastName: string, gender: string, dob: Option<JsDate>): (u: ProfileUpdates)
    ensures u.firstName == Trim(firstName) && u.lastName == Trim(lastName) && u.gender == gender
    ensures u.birthDate.Some? <==> dob.Some?
    ensures dob.Some? ==> u.birthDate.value == FormatDate(dob)
  {
    ProfileUpdates(Trim(firstName), Trim(lastName), gender, if dob.Some? then Some(FormatDate(dob)) else None)
  }

  /** The updates as profile fields, leaving out the undefined birth date. */
  function UpdatesData(u: ProfileUpdates): (data: ProfileData)
    ensures FirstNameField in data && data[FirstNameField] == Text(u.firstName)
    ensures LastNameField in data && data[LastNameField] == Text(u.lastName)
    ensures GenderField in data && data[GenderField] == Text(u.gender)
    ensures BirthDateField in data <==> u.birthDate.Some?
    ensures u.birthDate.Some? ==> data[BirthDateField] == Text(u.birthDate.value)
  {
    var names := map[FirstNameField := Text(u.firstName), LastNameField := Text(u.lastName), GenderField := Text(u.gender)];
    if u.birthDate.Some? then names[BirthDateField := Text(u.birthDate.value)] else names
  }

  /** The fields that the updates set to undefined. */
  function UndefinedFields(u: ProfileUpdates): set<ProfileField> {
    if u.birthDate.Some? then {} else {BirthDateField}
  }

  /** `profileData.x || ""` for a text field. */
  function TextOr(data: ProfileData, k: ProfileField): string {
    if k in data && data[k].Text? then data[k].s else ""
  }

  /** A date picked on this screen is read back as the same day once it is saved, from year 100 on. */
  lemma SavedBirthDateReadsBack(firstName: string, lastName: string, gender: string, y: int, m: int, d: int)
    requires ValidDate(y, m, d) && y >= 100
    ensures var u := SaveUpdates(firstName, lastName, gender, Some(Date(y, m, d)));
            u.birthDate.Some? && u.birthDate.value != "" &&
            ParseAccountBirthDate(u.birthDate.value) == Date(y, m, d)
  {
    AccountBirthDateRoundTrip(y, m, d);
  }

  /**
   * Reading the profile back after a save gives the saved names and gender, the saved date text,
   * and no date text at all when the form had no date.
   */
  lemma ReloadAfterSave(data: ProfileData, u: ProfileUpdates)
    ensures var after := OnboardingSlice.Merge(data, UpdatesData(u)) - UndefinedFields(u);
            TextOr(after, FirstNameField) == u.firstName && TextOr(after, LastNameField) == u.lastName &&
            TextOr(after, GenderField) == u.gender &&
            (u.birthDate.Some? ==> TextOr(after, BirthDateField) == u.birthDate.value) &&
            (u.birthDate.None? ==> TextOr(after, BirthDateField) == "")
  {
    var after := OnboardingSlice.Merge(data, UpdatesData(u)) - UndefinedFields(u);
    assert FirstNameField in after && after[FirstNameField] == Text(u.firstName);
    assert LastNameField in after && after[LastNameField] == Text(u.lastName);
    assert GenderField in after && after[GenderField] == Text(u.gender);
  }

  /**
   * Once the save settles, a rejected save leaves the locally saved values in place; a fulfilled
   * one shows "" for every field its answer sets to undefined, the answer's value for every field
   * it defines, and the local one elsewhere.
   */
  lemma ReloadAfterSettledSave(local: ProfileData, reply: SaveReply, k: ProfileField)
    ensures reply.SaveFailed? ==> TextOr(SettledData(local, reply), k) == TextOr(local, k)
    ensures reply.Saved? ==>
              TextOr(SettledData(local, reply), k) ==
                (if k in reply.undefinedFields then ""
                 else if k in reply.profile then TextOr(reply.profile, k)
                 else TextOr(local, k))
  {
  }

  /**
   * A save the server answered without a birth date clears the date text the form had just
   * saved, so the next load keeps the picked date only because an empty text is skipped.
   */
  lemma ServerWithoutDateClearsIt(local: ProfileData, resp: ProfileResponse)
    requires resp.birthDate.None?
    ensures TextOr(SettledData(local, FormatForFrontend(resp)), BirthDateField) == ""
  {
    ReloadAfterSettledSave(local, FormatForFrontend(resp), BirthDateField);
  }

  class AccountInformationScreen {
    const store: ProfileStore
    var firstName: string
    var lastName: string
    var gender: string
    var dob: Option<JsDate>
    var saving: bool
    /** The number of router.back() calls so far. */
    var backCalls: nat

    constructor (store: ProfileStore)
      ensures this.store == store
      ensures firstName == "" && lastName == "" && gender == "" && dob == None && !saving && backCalls == 0
    {
      this.store := store;
      firstName := "";
      lastName := "";
      gender := "";
      dob := None;
      saving := false;
      backCalls := 0;
    }

    method SetFirstName(v: string)
      modifies this`firstName
      ensures firstName == v
    {
      firstName := v;
    }

    method SetLastName(v: string)
      modifies this`lastName
      ensures lastName == v
    {
      lastName := v;
    }

    method PickDate(date: JsDate)
      modifies this`dob
      ensures dob == Some(date)
    {
      dob := Some(date);
    }

    /**
     * The effect on a profile change: the names and the gender are copied (missing ones become
     * ""); a stored birth date replaces the date, and without one the date is kept.
     */
    method LoadFromProfile()
      modifies this`firstName, this`lastName, this`gender, this`dob
      ensures firstName == TextOr(store.data, FirstNameField) && lastName == TextOr(store.data, LastNameField)
      ensures gender == TextOr(store.data, GenderField)
      ensures TextOr(store.data, BirthDateField) != "" ==> dob == Some(ParseAccountBirthDate(TextOr(store.data, BirthDateField)))
      ensures TextOr(store.data, BirthDateField) == "" ==> dob == old(dob)
    {
      firstName := TextOr(store.data, FirstNameField);
      lastName := TextOr(store.data, LastNameField);
      gender := TextOr(store.data, GenderField);
      var b := TextOr(store.data, BirthDateField);
      if b != "" {
        dob := Some(ParseAccountBirthDate(b));
      }
    }

    /**
     * onSave: the trimmed names, the gender and the formatted date go into the profile at once;
     * then the awaited save runs its pending reducer and, as it settles, merges the server's
     * profile over them or records the error. The screen is left only when the save fulfilled,
     * and saving ends either way.
     */
    method OnSave(reply: SaveReply, now: string) returns (u: ProfileUpdates)
      modifies store, this`saving, this`backCalls
      ensures u == SaveUpdates(old(firstName), old(lastName), old(gender), old(dob))
      ensures store.data == SettledData(OnboardingSlice.Merge(old(store.data), UpdatesData(u)) - UndefinedFields(u), reply)
      ensures !store.isLoading && store.error == (if reply.Saved? then None else reply.message)
      ensures reply.Saved? ==> store.hasCompletedProfile && store.lastUpdated == Some(now)
      ensures reply.SaveFailed? ==>
                store.hasCompletedProfile == old(store.hasCompletedProfile) && store.lastUpdated == old(store.lastUpdated)
      ensures backCalls == old(backCalls) + (if reply.Saved? then 1 else 0)
      ensures !saving
    {
      u := SaveUpdates(firstName, lastName, gender, dob);
      saving := true;
      store.UpdateLocalProfile(UpdatesData(u), UndefinedFields(u));
      store.CreateOrUpdateProfile(reply, now);
      if reply.Saved? {
        backCalls := backCalls + 1;
      }
      saving := false;
    }
  }
}
