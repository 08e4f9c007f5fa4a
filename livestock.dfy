/** The livestock form: ten text fields describing a farmer's cows and
    buffaloes, a required-field check, and a save that captures the device
    location and appends one record to the list kept in local storage. */
module Livestock {
  import opened Common
  import opened Text
  import opened Storage

  /** The names of the form's fields. */
  datatype Field =
    | NumberOfCows | BreedsOfCows | NumberOfMilkingCows | NumberOfDryCows | NumberOfCowCalvesAndHeifers
    | NumberOfBuffaloes | BreedsOfBuffaloes | NumberOfMilkingBuffaloes | NumberOfDryBuffaloes | NumberOfBuffaloCalvesAndHeifers

  /** `formData`: the text typed into each field. */
  datatype LivestockForm = LivestockForm(
    numberOfCows: string, breedsOfCows: string, numberOfMilkingCows: string,
    numberOfDryCows: string, numberOfCowCalvesAndHeifers: string,
    numberOfBuffaloes: string, breedsOfBuffaloes: string, numberOfMilkingBuffaloes: string,
    numberOfDryBuffaloes: string, numberOfBuffaloCalvesAndHeifers: string)
  {
    /** `formData[field]`. */
    function Get(field: Field): string {
      match field
      case NumberOfCows => numberOfCows
      case BreedsOfCows => breedsOfCows
      case NumberOfMilkingCows => numberOfMilkingCows
      case NumberOfDryCows => numberOfDryCows
      case NumberOfCowCalvesAndHeifers => numberOfCowCalvesAndHeifers
      case NumberOfBuffaloes => numberOfBuffaloes
      case BreedsOfBuffaloes => breedsOfBuffaloes
      case NumberOfMilkingBuffaloes => numberOfMilkingBuffaloes
      case NumberOfDryBuffaloes => numberOfDryBuffaloes
      case NumberOfBuffaloCalvesAndHeifers => numberOfBuffaloCalvesAndHeifers
    }

    /** `{ ...formData, [field]: value }`: the named field takes the new text
        and the other nine keep theirs. */
    function Set(field: Field, value: string): (r: LivestockForm)
      ensures r.Get(field) == value
      ensures forall other :: other != field ==> r.Get(other) == Get(other)
    {
      match field
      case NumberOfCows => this.(numberOfCows := value)
      case BreedsOfCows => this.(breedsOfCows := value)
      case NumberOfMilkingCows => this.(numberOfMilkingCows := value)
      case NumberOfDryCows => this.(numberOfDryCows := value)
      case NumberOfCowCalvesAndHeifers => this.(numberOfCowCalvesAndHeifers := value)
      case NumberOfBuffaloes => this.(numberOfBuffaloes := value)
      case BreedsOfBuffaloes => this.(breedsOfBuffaloes := value)
      case NumberOfMilkingBuffaloes => this.(numberOfMilkingBuffaloes := value)
      case NumberOfDryBuffaloes => this.(numberOfDryBuffaloes := value)
      case NumberOfBuffaloCalvesAndHeifers => this.(numberOfBuffaloCalvesAndHeifers := value)
    }
  }

  /** A form is determined by what its ten fields read. */
  lemma FormExtensional(a: LivestockForm, b: LivestockForm)
    requires forall f :: a.Get(f) == b.Get(f)
    ensures a == b
  {
    assert a.Get(NumberOfCows) == b.Get(NumberOfCows);
    assert a.Get(BreedsOfCows) == b.Get(BreedsOfCows);
    assert a.Get(NumberOfMilkingCows) == b.Get(NumberOfMilkingCows);
    assert a.Get(NumberOfDryCows) == b.Get(NumberOfDryCows);
    assert a.Get(NumberOfCowCalvesAndHeifers) == b.Get(NumberOfCowCalvesAndHeifers);
    assert a.Get(NumberOfBuffaloes) == b.Get(NumberOfBuffaloes);
    assert a.Get(BreedsOfBuffaloes) == b.Get(BreedsOfBuffaloes);
    assert a.Get(NumberOfMilkingBuffaloes) == b.Get(NumberOfMilkingBuffaloes);
    assert a.Get(NumberOfDryBuffaloes) == b.Get(NumberOfDryBuffaloes);
    assert a.Get(NumberOfBuffaloCalvesAndHeifers) == b.Get(NumberOfBuffaloCalvesAndHeifers);
  }

  /** Writing back what a field already holds changes nothing. */
  lemma SetSameValueIsIdentity(form: LivestockForm, field: Field)
    ensures form.Set(field, form.Get(field)) == form
  {
    FormExtensional(form.Set(field, form.Get(field)), form);
  }

  /** The form as the screen first shows it: every field empty. */
  const EmptyForm := LivestockForm("", "", "", "", "", "", "", "", "", "")

  /** The fields `validateForm` requires, in its order. */
  const RequiredFields: seq<Field> := [
    NumberOfCows, BreedsOfCows, NumberOfMilkingCows, NumberOfDryCows, NumberOfCowCalvesAndHeifers,
    NumberOfBuffaloes, BreedsOfBuffaloes, NumberOfMilkingBuffaloes, NumberOfDryBuffaloes, NumberOfBuffaloCalvesAndHeifers]

  /** Every one of the ten fields is on the required list. */
  lemma EveryFieldIsRequired(field: Field)
    ensures field in RequiredFields
  {
  }

  /** `!value.trim()`: the field counts as missing, which is exactly when it
      holds nothing but whitespace. */
  predicate IsBlank(value: string)
    ensures IsBlank(value) <==> AllWhitespace(value)
  {
    TrimEmptyIffAllWhitespace(value);
    Trim(value) == []
  }

  /** `required.filter(field => !formData[field].trim())`: the blank fields of
      `fields`, in their order. */
  function MissingFields(form: LivestockForm, fields: seq<Field>): (missing: seq<Field>)
    ensures forall f :: f in missing <==> f in fields && IsBlank(form.Get(f))
    ensures |missing| <= |fields|
  {
    if fields == [] then []
    else (if IsBlank(form.Get(fields[0])) then [fields[0]] else []) + MissingFields(form, fields[1..])
  }

  /** `validateForm`: the form passes exactly when no required field is blank. */
  function ValidateForm(form: LivestockForm): (valid: bool)
    ensures valid <==> forall f :: !IsBlank(form.Get(f))
  {
    var missing := MissingFields(form, RequiredFields);
    assert forall f :: f in RequiredFields by {
      forall f ensures f in RequiredFields { EveryFieldIsRequired(f); }
    }
    assert missing != [] ==> missing[0] in missing;
    |missing| == 0
  }

  /** Blank means whitespace only: the form passes exactly when every field
      holds at least one character that is not whitespace. */
  lemma ValidIffNoFieldAllWhitespace(form: LivestockForm)
    ensures ValidateForm(form) <==> forall f :: !AllWhitespace(form.Get(f))
  {
    forall f {
      TrimEmptyIffAllWhitespace(form.Get(f));
    }
  }

  /** Typing only spaces (or nothing) into any field makes the form invalid. */
  lemma WhitespaceOnlyIsMissing(form: LivestockForm, field: Field, value: string)
    requires AllWhitespace(value)
    ensures !ValidateForm(form.Set(field, value))
  {
    TrimEmptyIffAllWhitespace(value);
  }

  // ---------------------------------------------------------------------
  // Location
  // ---------------------------------------------------------------------

  /** A position fix; the coordinates are not computed with. */
  datatype Location = Location(latitude: real, longitude: real)

  /** What `Geolocation.getCurrentPosition` reports: a position or an error code. */
  datatype GeoOutcome = Position(location: Location) | GeoError(code: int)

  /** What `getCurrentLocation` ends in: `null` without permission, a resolved
      location, or a rejection carrying the error code. */
  datatype LocationResult = NoPermission | Resolved(location: Location) | Rejected(code: int)

  const LocationFailurePrefix := "Failed to get location. "

  /** The message of the location error alert for a geolocation error code. */
  function LocationErrorMessage(code: int): (message: string)
    ensures code == 1 ==> message == LocationFailurePrefix + "Permission denied. Please enable location services."
    ensures code == 2 ==> message == LocationFailurePrefix + "Position unavailable. Make sure GPS is enabled."
    ensures code == 3 ==> message == LocationFailurePrefix + "Request timeout. Please try again."
    ensures code !in {1, 2, 3} ==> message == LocationFailurePrefix + "Unknown error occurred."
  {
    LocationFailurePrefix +
      match code
      case 1 => "Permission denied. Please enable location services."
      case 2 => "Position unavailable. Make sure GPS is enabled."
      case 3 => "Request timeout. Please try again."
      case _ => "Unknown error occurred."
  }

  /** Every message starts with the common prefix, the three known codes get
      three different messages, and every other code shares the unknown one. */
  lemma LocationMessagesDistinguishKnownCodes(a: int, b: int)
    ensures LocationErrorMessage(a)[..|LocationFailurePrefix|] == LocationFailurePrefix
    ensures a in {1, 2, 3} && a != b ==> LocationErrorMessage(a) != LocationErrorMessage(b)
    ensures a !in {1, 2, 3} && b !in {1, 2, 3} ==> LocationErrorMessage(a) == LocationErrorMessage(b)
  {
    var p := LocationFailurePrefix;
    var ma, mb := LocationErrorMessage(a), LocationErrorMessage(b);
    assert ma[..|p|] == p;
    if a in {1, 2, 3} && a != b {
      assert ma[|p|..] != mb[|p|..];
    }
  }

  // ---------------------------------------------------------------------
  // The saved record and the screen
  // ---------------------------------------------------------------------

  /** `dataToSave`: the form's fields, the location, the registration date and
      the id (the last two come from the clock and are passed in). */
  datatype DairyRecord = DairyRecord(form: LivestockForm, location: Location, registrationDate: string, id: string)

  /** The storage key of the saved records. */
  const DairyDataKey := "dairyData"

  /** Which of the two storage calls, if any, fails. */
  datatype StorageOutcome = StorageOk | ReadFailed | WriteFailed

  /** How `saveData` ends. */
  datatype SaveOutcome = InvalidForm | LocationRequired | LocationFailed(message: string) | StorageFailed | Saved

  const ValidationAlert := Alert("Validation Error", "Please fill in all required fields.")
  const LocationRequiredAlert := Alert("Location Required", "Location is required to save livestock data.")
  const SaveFailedAlert := Alert("Error", "Failed to save data. Please try again.")
  const SavedAlert := Alert("Success", "Livestock data saved successfully!")

  /** The stored list grew by exactly `record`: one longer, the earlier
      records unchanged and in their order, the new one last. */
  predicate StoredListGrew(before: seq<DairyRecord>, after: seq<DairyRecord>, record: DairyRecord) {
    |after| == |before| + 1 && after[..|before|] == before && after[|before|] == record
  }

  /** The alerts each way of ending shows, in order: one alert, except a
      location error, which is followed by the generic save failure. Only a
      successful save shows the success alert, and the generic failure always
      comes last when it appears. */
  function SaveAlerts(outcome: SaveOutcome): (alerts: seq<Alert>)
    ensures |alerts| == if outcome.LocationFailed? then 2 else 1
    ensures SavedAlert in alerts <==> outcome == Saved
    ensures SaveFailedAlert in alerts <==> outcome.LocationFailed? || outcome == StorageFailed
    ensures SaveFailedAlert in alerts ==> alerts[|alerts| - 1] == SaveFailedAlert
    ensures outcome.LocationFailed? ==> alerts[0] == Alert("Location Error", outcome.message)
  {
    match outcome
    case InvalidForm => [ValidationAlert]
    case LocationRequired => [LocationRequiredAlert]
    case LocationFailed(message) => [Alert("Location Error", message), SaveFailedAlert]
    case StorageFailed => [SaveFailedAlert]
    case Saved => [SavedAlert]
  }

  class FormScreen {
    var formData: LivestockForm
    var location: Option<Location>
    var isGettingLocation: bool
    const store: ListStore<DairyRecord>

    constructor (store: ListStore<DairyRecord>)
      ensures formData == EmptyForm && location == None && !isGettingLocation
      ensures this.store == store
    {
      formData := EmptyForm;
      location := None;
      isGettingLocation := false;
      this.store := store;
    }

    /** `handleInputChange`: set one field, keep the other nine. */
    method HandleInputChange(field: Field, value: string)
      modifies this
      ensures formData == old(formData).Set(field, value)
      ensures formData.Get(field) == value
      ensures forall other :: other != field ==> formData.Get(other) == old(formData).Get(other)
      ensures location == old(location) && isGettingLocation == old(isGettingLocation)
    {
      formData := formData.Set(field, value);
    }

    /** `getCurrentLocation`, given whether permission was obtained and what the
        position request reports. */
    method GetCurrentLocation(hasPermission: bool, geo: GeoOutcome) returns (result: LocationResult, alerts: seq<Alert>)
      modifies this
      ensures !hasPermission ==> result == NoPermission && alerts == []
      ensures !hasPermission ==> location == old(location) && isGettingLocation == old(isGettingLocation)
      ensures hasPermission && geo.Position? ==>
                result == Resolved(geo.location) && location == Some(geo.location) && alerts == []
      ensures hasPermission && geo.GeoError? ==>
                && result == Rejected(geo.code) && location == old(location)
                && alerts == [Alert("Location Error", LocationErrorMessage(geo.code))]
      ensures hasPermission ==> !isGettingLocation
      ensures formData == old(formData)
    {
      if !hasPermission {
        return NoPermission, [];
      }
      isGettingLocation := true;
      match geo {
        case Position(loc) =>
          location := Some(loc);
          isGettingLocation := false;
          result, alerts := Resolved(loc), [];
        case GeoError(code) =>
          isGettingLocation := false;
          result, alerts := Rejected(code), [Alert("Location Error", LocationErrorMessage(code))];
      }
    }

    /** `saveData`: validate, obtain the location, then append one record to the
        stored list. Every early exit leaves the store as it was. */
    method SaveData(hasPermission: bool, geo: GeoOutcome, storage: StorageOutcome, registrationDate: string, id: string)
      returns (outcome: SaveOutcome, alerts: seq<Alert>)
      modifies this, store
      ensures alerts == SaveAlerts(outcome)
      ensures outcome == Saved <==> ValidateForm(old(formData)) && hasPermission && geo.Position? && storage == StorageOk
      ensures !ValidateForm(old(formData)) ==>
                outcome == InvalidForm && location == old(location) && isGettingLocation == old(isGettingLocation)
      ensures ValidateForm(old(formData)) && !hasPermission ==>
                outcome == LocationRequired && location == old(location) && isGettingLocation == old(isGettingLocation)
      ensures ValidateForm(old(formData)) && hasPermission && geo.GeoError? ==>
                outcome == LocationFailed(LocationErrorMessage(geo.code)) && location == old(location)
      ensures ValidateForm(old(formData)) && hasPermission && geo.Position? ==>
                location == Some(geo.location) && outcome == (if storage == StorageOk then Saved else StorageFailed)
      ensures ValidateForm(old(formData)) && hasPermission ==> !isGettingLocation
      ensures outcome != Saved ==> store.items == old(store.items)
      ensures outcome == Saved ==>
                store.items == old(store.items)[DairyDataKey := old(store.GetList(DairyDataKey)) +
                                                  [DairyRecord(old(formData), geo.location, registrationDate, id)]]
      ensures outcome == Saved ==>
                StoredListGrew(old(store.GetList(DairyDataKey)), store.GetList(DairyDataKey),
                               DairyRecord(old(formData), geo.location, registrationDate, id))
      ensures formData == old(formData)
    {
      if !ValidateForm(formData) {
        outcome := InvalidForm;
        alerts := SaveAlerts(outcome);
        return;
      }
      var located, locationAlerts := GetCurrentLocation(hasPermission, geo);
      match located {
        case NoPermission =>
          outcome := LocationRequired;
        case Rejected(code) =>
          outcome := LocationFailed(LocationErrorMessage(code));
        case Resolved(loc) =>
          var saved := AppendRecord(DairyRecord(formData, loc, registrationDate, id), storage);
          outcome := if saved then Saved else StorageFailed;
      }
      alerts := SaveAlerts(outcome);
    }

    /** The storage half of `saveData`: read the list (an absent key reads as
        empty), append the record, write the list back. A failing read or
        write leaves the store as it was. */
    method AppendRecord(record: DairyRecord, storage: StorageOutcome) returns (saved: bool)
      modifies store
      ensures saved <==> storage == StorageOk
      ensures saved ==> store.items == old(store.items)[DairyDataKey := old(store.GetList(DairyDataKey)) + [record]]
      ensures !saved ==> store.items == old(store.items)
      ensures saved ==> StoredListGrew(old(store.GetList(DairyDataKey)), store.GetList(DairyDataKey), record)
    {
      if storage == ReadFailed {
        return false;
      }
      var dairyList := store.GetList(DairyDataKey);
      dairyList := dairyList + [record];
      if storage == WriteFailed {
        return false;
      }
      store.SetItem(DairyDataKey, dairyList);
      saved := true;
      assert dairyList[..|dairyList| - 1] == old(store.GetList(DairyDataKey));
    }
  }

  /** The `clearData` handler of the home screen: after confirmation, remove
      the saved list; cancelling or a failing removal keeps it. */
  method ClearDairyData(store: ListStore<DairyRecord>, confirmed: bool, removalOk: bool) returns (alert: Option<Alert>)
    modifies store
    ensures confirmed && removalOk ==> store.items == old(store.items) - {DairyDataKey} && store.GetList(DairyDataKey) == []
    ensures !(confirmed && removalOk) ==> store.items == old(store.items)
    ensures alert == if !confirmed then None
                     else if removalOk then Some(Alert("Success", "All dairy data has been cleared."))
                     else Some(Alert("Error", "Failed to clear data."))
  {
    if !confirmed {
      return None;
    }
    if removalOk {
      store.RemoveItem(DairyDataKey);
      alert := Some(Alert("Success", "All dairy data has been cleared."));
    } else {
      alert := Some(Alert("Error", "Failed to clear data."));
    }
  }
}
