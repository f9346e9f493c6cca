/**
 * The profile state: the profile record as a partial map of fields, the request status of the
 * two profile requests, and whether a profile has ever been saved or fetched.
 */
module ProfileSlice {
  import opened Wrappers
  import opened Api
  import OnboardingSlice

  datatype ProfileField =
    | FirstNameField | LastNameField | GenderField | BirthDateField
    | WeightField | HeightField
    | MainTargetField | RecentVo2Field | RecentRaceTimeField | MedicalConditionField

  type ProfileData = map<ProfileField, FieldValue>

  /**
   * How a createOrUpdateProfile dispatch settles: fulfilled with the profile object the thunk
   * returns, whose fields set to undefined are listed apart, or rejected with its message.
   */
  datatype SaveReply =
    | Saved(profile: ProfileData, undefinedFields: set<ProfileField>)
    | SaveFailed(message: Option<string>)

  /** The server's profile record, as far as formatForFrontend reads it. */
  datatype ProfileResponse = ProfileResponse(
    firstName: Option<string>, lastName: Option<string>, gender: Option<string>,
    birthDate: Option<string>, heightInches: Option<real>)

  /** The five keys of the object formatForFrontend builds. */
  const FrontendFields: set<ProfileField> := {FirstNameField, LastNameField, GenderField, BirthDateField, HeightField}

  /** The value formatForFrontend gives key k, or None where it leaves k undefined. */
  function FormattedValue(resp: ProfileResponse, k: ProfileField): Option<FieldValue> {
    match k
    case FirstNameField => if resp.firstName.Some? then Some(Text(resp.firstName.value)) else None
    case LastNameField => if resp.lastName.Some? then Some(Text(resp.lastName.value)) else None
    case GenderField => if resp.gender.Some? then Some(Text(resp.gender.value)) else None
    case BirthDateField => if resp.birthDate.Some? then Some(Text(resp.birthDate.value)) else None
    case HeightField =>
      if resp.heightInches.Some? && resp.heightInches.value != 0.0 then Some(Num(resp.heightInches.value * 2.54))
      else None
    case _ => None
  }

  /**
   * formatForFrontend: the five fields of the record, with inches turned into centimetres; a
   * missing field is undefined, and so is a height of 0, which is falsy.
   */
  function FormatForFrontend(resp: ProfileResponse): (reply: SaveReply)
    ensures reply.Saved?
    ensures reply.profile.Keys + reply.undefinedFields == FrontendFields
    ensures reply.profile.Keys !! reply.undefinedFields
    ensures FirstNameField in reply.profile <==> resp.firstName.Some?
    ensures resp.firstName.Some? ==> reply.profile[FirstNameField] == Text(resp.firstName.value)
    ensures BirthDateField in reply.profile <==> resp.birthDate.Some?
    ensures resp.birthDate.Some? ==> reply.profile[BirthDateField] == Text(resp.birthDate.value)
    ensures HeightField in reply.profile <==> resp.heightInches.Some? && resp.heightInches.value != 0.0
    ensures HeightField in reply.profile ==> reply.profile[HeightField] == Num(resp.heightInches.value * 2.54)
  {
    var profile := map k | k in FrontendFields && FormattedValue(resp, k).Some? :: FormattedValue(resp, k).value;
    var undefinedFields := set k | k in FrontendFields && FormattedValue(resp, k).None?;
    assert profile.Keys + undefinedFields == FrontendFields;
    Saved(profile, undefinedFields)
  }

  /**
   * The profile data once a save has settled over `data`: the spread of the fulfilled payload
   * wins where it defines a field, clears the fields it sets to undefined, and keeps the rest.
   */
  function SettledData(data: ProfileData, reply: SaveReply): (r: ProfileData)
    ensures reply.SaveFailed? ==> r == data
    ensures reply.Saved? ==> forall k :: k in reply.undefinedFields ==> k !in r
    ensures reply.Saved? ==> forall k :: k in reply.profile && k !in reply.undefinedFields ==> k in r && r[k] == reply.profile[k]
    ensures reply.Saved? ==>
              forall k :: k in data && k !in reply.profile && k !in reply.undefinedFields ==> k in r && r[k] == data[k]
    ensures reply.Saved? ==> r.Keys <= data.Keys + reply.profile.Keys
  {
    match reply
    case Saved(profile, undefinedFields) => OnboardingSlice.Merge(data, profile) - undefinedFields
    case SaveFailed(_) => data
  }

  /**
   * After a save the server answered, the five fields of the profile are exactly the server's:
   * a field the record lacks (a height of 0 or null among them) is gone, whatever was stored.
   */
  lemma ServerProfileDecides(data: ProfileData, resp: ProfileResponse)
    ensures var r := SettledData(data, FormatForFrontend(resp));
            (forall k :: k in FrontendFields ==> (k in r <==> k in FormatForFrontend(resp).profile)) &&
            (forall k :: k !in FrontendFields ==> (k in r <==> k in data)) &&
            (HeightField in r <==> resp.heightInches.Some? && resp.heightInches.value != 0.0)
  {
    var reply := FormatForFrontend(resp);
    var r := SettledData(data, reply);
    forall k | k !in FrontendFields
      ensures k in r <==> k in data
    {
      assert k !in reply.profile && k !in reply.undefinedFields;
    }
  }

  class ProfileStore {
    var data: ProfileData
    var isLoading: bool
    var error: Option<string>
    var hasCompletedProfile: bool
    var lastUpdated: Option<string>

    constructor ()
      ensures data == map[] && !isLoading && error == None && !hasCompletedProfile && lastUpdated == None
    {
      data := map[];
      isLoading := false;
      error := None;
      hasCompletedProfile := false;
      lastUpdated := None;
    }

    /** setProfileData: a shallow merge. */
    method SetProfileData(payload: ProfileData)
      modifies this`data
      ensures data == OnboardingSlice.Merge(old(data), payload)
      ensures forall k :: k in old(data) && k !in payload ==> k in data && data[k] == old(data)[k]
    {
      data := OnboardingSlice.Merge(data, payload);
    }

    /**
     * updateLocalProfile: the same shallow merge, for a payload that may hold a field set to
     * undefined; spreading it makes that field undefined, which is read as absent.
     */
    method UpdateLocalProfile(payload: ProfileData, undefinedFields: set<ProfileField>)
      modifies this`data
      ensures data == OnboardingSlice.Merge(old(data), payload) - undefinedFields
      ensures forall k :: k in undefinedFields ==> k !in data
      ensures forall k :: k in payload && k !in undefinedFields ==> k in data && data[k] == payload[k]
    {
      data := OnboardingSlice.Merge(data, payload) - undefinedFields;
    }

    method ClearProfileError()
      modifies this`error
      ensures error == None
    {
      error := None;
    }

    /** resetProfile: the loading flag is kept. */
    method ResetProfile()
      modifies this`data, this`hasCompletedProfile, this`error, this`lastUpdated
      ensures data == map[] && !hasCompletedProfile && error == None && lastUpdated == None
    {
      data := map[];
      hasCompletedProfile := false;
      error := None;
      lastUpdated := None;
    }

    /** The pending case of both profile requests. */
    method RequestPending()
      modifies this`isLoading, this`error
      ensures isLoading && error == None
    {
      isLoading := true;
      error := None;
    }

    /**
     * createOrUpdateProfile.fulfilled: the answer is spread over the data, so a field it sets
     * to undefined ends undefined.
     */
    method SaveFulfilled(payload: ProfileData, undefinedFields: set<ProfileField>, now: string)
      modifies this`isLoading, this`data, this`error, this`hasCompletedProfile, this`lastUpdated
      ensures data == OnboardingSlice.Merge(old(data), payload) - undefinedFields
      ensures forall k :: k in undefinedFields ==> k !in data
      ensures !isLoading && error == None && hasCompletedProfile && lastUpdated == Some(now)
    {
      isLoading := false;
      data := OnboardingSlice.Merge(data, payload) - undefinedFields;
      error := None;
      hasCompletedProfile := true;
      lastUpdated := Some(now);
    }

    /** fetchProfile.fulfilled: the answer replaces the data. */
    method FetchFulfilled(payload: ProfileData, now: string)
      modifies this`isLoading, this`data, this`error, this`hasCompletedProfile, this`lastUpdated
      ensures data == payload
      ensures !isLoading && error == None && hasCompletedProfile && lastUpdated == Some(now)
    {
      isLoading := false;
      data := payload;
      hasCompletedProfile := true;
      error := None;
      lastUpdated := Some(now);
    }

    /**
     * A createOrUpdateProfile dispatch, as the store sees it: the pending case, then the
     * fulfilled or rejected case for the reply. The request itself is not part of this model.
     */
    method CreateOrUpdateProfile(reply: SaveReply, now: string)
      modifies this`isLoading, this`data, this`error, this`hasCompletedProfile, this`lastUpdated
      ensures data == SettledData(old(data), reply)
      ensures !isLoading && error == (if reply.Saved? then None else reply.message)
      ensures reply.Saved? ==> hasCompletedProfile && lastUpdated == Some(now)
      ensures reply.SaveFailed? ==> hasCompletedProfile == old(hasCompletedProfile) && lastUpdated == old(lastUpdated)
    {
      RequestPending();
      match reply
      case Saved(profile, undefinedFields) => SaveFulfilled(profile, undefinedFields, now);
      case SaveFailed(message) => RequestRejected(message);
    }

    /** The rejected case of both profile requests: the data is left as it was. */
    method RequestRejected(message: Option<string>)
      modifies this`isLoading, this`error
      ensures !isLoading && error == message
    {
      isLoading := false;
      error := message;
    }
  }
}
