/**
 * The contact settings page: the five settings read from the API with '' for missing
 * members, the `loading` and `saving` flags cleared in `finally`, and the preview's
 * 'Not set' fallback. The API's answers are parameters.
 */
module ContactSettings {
  import opened Wrappers
  import Js

  datatype Settings = Settings(phone: string, email: string, whatsapp: string, address: string, officeHours: string)

  const EmptySettings := Settings("", "", "", "", "")

  /** The settings object the API returns; members may be missing, and other members are ignored. */
  datatype Raw = Raw(
    phone: Option<string>, email: Option<string>, whatsapp: Option<string>,
    address: Option<string>, officeHours: Option<string>)

  /** The object `loadSettings` stores: each of the five members, or '' when missing. */
  function Normalise(data: Raw): (s: Settings)
    ensures s.phone == data.phone.GetOr("") && s.email == data.email.GetOr("")
    ensures s.whatsapp == data.whatsapp.GetOr("") && s.address == data.address.GetOr("")
    ensures s.officeHours == data.officeHours.GetOr("")
  {
    Settings(Js.OrMissing(data.phone, ""), Js.OrMissing(data.email, ""), Js.OrMissing(data.whatsapp, ""),
             Js.OrMissing(data.address, ""), Js.OrMissing(data.officeHours, ""))
  }

  /** The object `updateContactSettings` sends, as the API would hand it back. */
  function Sent(s: Settings): Raw {
    Raw(Some(s.phone), Some(s.email), Some(s.whatsapp), Some(s.address), Some(s.officeHours))
  }

  /** Loading what was saved gives the same settings back, empty members included. */
  lemma LoadSaved(s: Settings)
    ensures Normalise(Sent(s)) == s
  {
  }

  /** A settings object without any of the five members loads as the empty settings. */
  lemma LoadNothing()
    ensures Normalise(Raw(None, None, None, None, None)) == EmptySettings
  {
  }

  const NotSet := "Not set"

  /** One preview line: `value || 'Not set'`. */
  function PreviewValue(v: string): (r: string)
    ensures r != ""
    ensures v != "" ==> r == v
    ensures v == "" ==> r == NotSet
  {
    Js.Or(v, NotSet)
  }

  /** The preview's five lines, in page order. */
  function Preview(s: Settings): (r: seq<string>)
    ensures |r| == 5
    ensures forall i :: 0 <= i < 5 ==> r[i] != ""
  {
    [PreviewValue(s.phone), PreviewValue(s.email), PreviewValue(s.whatsapp),
     PreviewValue(s.address), PreviewValue(s.officeHours)]
  }

  /** After a failed load every preview line reads 'Not set'. */
  lemma EmptyPreview()
    ensures Preview(EmptySettings) == [NotSet, NotSet, NotSet, NotSet, NotSet]
  {
  }

  /** The preview shows a set member as it is, so for text other than 'Not set' it tells set from unset. */
  lemma PreviewShowsSetValues(s: Settings)
    requires s.phone != NotSet && s.email != NotSet && s.whatsapp != NotSet
    requires s.address != NotSet && s.officeHours != NotSet
    ensures Preview(s)[0] == NotSet <==> s.phone == ""
    ensures Preview(s)[1] == NotSet <==> s.email == ""
    ensures Preview(s)[2] == NotSet <==> s.whatsapp == ""
    ensures Preview(s)[3] == NotSet <==> s.address == ""
    ensures Preview(s)[4] == NotSet <==> s.officeHours == ""
  {
  }

  const SaveDone := "Contact settings updated successfully!"
  const SaveFailed := "Failed to update settings"

  /** The page's `settings`, `loading` and `saving` state. */
  class ContactSettingsPage {
    var settings: Settings
    var loading: bool
    var saving: bool

    constructor ()
      ensures settings == EmptySettings && loading && !saving
    {
      settings := EmptySettings;
      loading := true;
      saving := false;
    }

    /**
     * `loadSettings` given what `getContactSettings` returned (None when it threw): the
     * normalised settings on success, the previous ones on failure, and `loading` cleared either way.
     */
    method LoadSettings(data: Option<Raw>)
      modifies this`settings, this`loading
      ensures data.Some? ==> settings == Normalise(data.value)
      ensures data.None? ==> settings == old(settings)
      ensures !loading && saving == old(saving)
    {
      if data.Some? {
        settings := Normalise(data.value);
      }
      loading := false;
    }

    /**
     * `handleSave` given whether `updateContactSettings` succeeded: the settings sent, the
     * flag the call runs under, the alert text, and `saving` cleared in any case.
     */
    method HandleSave(callOk: bool) returns (sent: Settings, during: bool, alert: string)
      modifies this`saving
      ensures sent == settings && during && !saving
      ensures callOk ==> alert == SaveDone
      ensures !callOk ==> alert == SaveFailed
    {
      saving := true;
      during := saving;
      sent := settings;
      if callOk {
        alert := SaveDone;
      } else {
        alert := SaveFailed;
      }
      saving := false;
    }
  }

  /** Opening the page when the API fails leaves every member empty and the page no longer loading. */
  method OpenWithFailedLoad() returns (page: ContactSettingsPage)
    ensures fresh(page) && page.settings == EmptySettings && !page.loading && !page.saving
  {
    page := new ContactSettingsPage();
    page.LoadSettings(None);
  }

  /** Saving and then loading what the API stored shows the same settings. */
  method SaveThenReload(page: ContactSettingsPage) returns (alert: string)
    modifies page
    ensures page.settings == old(page.settings) && !page.loading && !page.saving
    ensures alert == SaveDone
  {
    var sent, during;
    sent, during, alert := page.HandleSave(true);
    page.LoadSettings(Some(Sent(sent)));
    LoadSaved(sent);
  }
}
