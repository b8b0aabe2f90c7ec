/** client/src/components/admin/StreamTab.tsx: the stream status controls,
    each sending a one-field settings patch, and the next-stream schedule
    form with its defaults, its reload and its submission. */
module StreamTab {
  import opened Js
  import opened Schema
  import opened ClientTypes
  import opened Browser
  import ClientStorage

  /** The auto-detect switch, the channel select, the offline select and
      the next-stream switch each send a patch of their own field. */
  function AutoDetectChanged(checked: bool): Patch { NoChange.(autoDetectStream := Some(checked)) }
  function CurrentStreamChanged(value: string): Patch { NoChange.(currentStream := Some(value)) }
  function OfflineBehaviorChanged(value: string): Patch { NoChange.(offlineBehavior := Some(value)) }
  function ShowNextStreamChanged(checked: bool): Patch { NoChange.(showNextStream := Some(checked)) }

  /** Each control's patch names one property. */
  lemma StreamControlKeys(b: bool, v: string)
    ensures DefinedKeys(AutoDetectChanged(b)) == {"autoDetectStream"}
    ensures DefinedKeys(CurrentStreamChanged(v)) == {"currentStream"}
    ensures DefinedKeys(OfflineBehaviorChanged(v)) == {"offlineBehavior"}
    ensures DefinedKeys(ShowNextStreamChanged(b)) == {"showNextStream"}
  {
  }

  /** Applying a control's patch sets its property and keeps every other. */
  lemma StreamControlApply(s: AppSettings, b: bool, v: string)
    ensures Apply(s, AutoDetectChanged(b)) == s.(autoDetectStream := b)
    ensures Apply(s, CurrentStreamChanged(v)) == s.(currentStream := Some(v))
  {
  }

  lemma StreamDisplayApply(s: AppSettings, b: bool, v: string)
    ensures Apply(s, OfflineBehaviorChanged(v)) == s.(offlineBehavior := Some(v))
    ensures Apply(s, ShowNextStreamChanged(b)) == s.(showNextStream := b)
  {
  }

  datatype ScheduleForm = ScheduleForm(title: string, streamType: string, date: string, time: string)

  /** The form's default values. */
  const DefaultScheduleForm := ScheduleForm("", "IRL", "", "")

  /** The fields `scheduleFormSchema` reports as invalid. */
  function ScheduleFormErrors(f: ScheduleForm): set<string> {
    (if |f.title| < 3 || |f.title| > 100 then {"title"} else {})
    + (if |f.streamType| < 1 then {"streamType"} else {})
    + (if |f.date| < 1 then {"date"} else {})
    + (if |f.time| < 1 then {"time"} else {})
  }

  predicate ScheduleFormValid(f: ScheduleForm) {
    ScheduleFormErrors(f) == {}
  }

  /** The form is valid exactly when the title has 3 to 100 characters and
      the type, date and time are not empty; the defaults lack a title,
      date and time. */
  lemma ScheduleFormRules(f: ScheduleForm)
    ensures ScheduleFormValid(f) <==> 3 <= |f.title| <= 100 && f.streamType != "" && f.date != "" && f.time != ""
    ensures "title" in ScheduleFormErrors(f) <==> !(3 <= |f.title| <= 100)
    ensures ScheduleFormErrors(DefaultScheduleForm) == {"title", "date", "time"}
  {
    if !(3 <= |f.title| <= 100) {
      assert "title" in ScheduleFormErrors(f);
    }
    if f.streamType == "" {
      assert "streamType" in ScheduleFormErrors(f);
    }
    if f.date == "" {
      assert "date" in ScheduleFormErrors(f);
    }
    if f.time == "" {
      assert "time" in ScheduleFormErrors(f);
    }
  }

  /** The record `saveSchedule` is given: the form's four fields, `isActive` omitted. */
  function FormInsert(f: ScheduleForm): InsertStreamSchedule {
    InsertStreamSchedule(f.title, f.streamType, f.date, f.time, None)
  }

  /** The form's values for a loaded schedule. */
  function FormOf(s: StreamSchedule): ScheduleForm {
    ScheduleForm(s.title, s.streamType, s.date, s.time)
  }

  /** A valid form is accepted by the server's schema as it is; loading the
      schedule the server then stores gives the same form back. */
  lemma FormRoundTrip(f: ScheduleForm, id: int, active: Option<bool>)
    ensures ParseInsertStreamSchedule(ScheduleBody(FormInsert(f))) == Some(FormInsert(f))
    ensures FormOf(StreamSchedule(id, f.title, f.streamType, f.date, f.time, active)) == f
  {
    ParseScheduleBody(FormInsert(f));
  }

  /** The tab's state. */
  class ScheduleEditor {
    var form: ScheduleForm
    var isSubmitting: bool
    var toast: Option<Toast>

    constructor ()
      ensures form == DefaultScheduleForm && !isSubmitting && toast == None
    {
      form := DefaultScheduleForm;
      isSubmitting := false;
      toast := None;
    }

    /** `loadScheduleData()`: a fetched (or cached) schedule resets the form
        to its four fields; none leaves the form as it is. */
    method Load(page: Page, response: Outcome<StreamSchedule>)
      modifies this`form
      ensures response.Ok? ==> form == FormOf(response.value)
      ensures response.Failed? && ClientStorage.CachedSchedule(page.localStorage).Some? ==>
        form == FormOf(ClientStorage.CachedSchedule(page.localStorage).value)
      ensures response.Failed? && ClientStorage.CachedSchedule(page.localStorage).None? ==> form == old(form)
    {
      var schedule := ClientStorage.FetchSchedule(page, response);
      if schedule.Some? {
        form := FormOf(schedule.value);
      }
    }

    /** `onSubmitSchedule(data)`, run on valid form data only: the
        schedule is posted, a toast tells whether it was saved, and the tab
        stops submitting. The form itself is kept. */
    method Submit(page: Page, data: ScheduleForm, response: Outcome<StreamSchedule>)
      requires ScheduleFormValid(data)
      modifies this`isSubmitting, this`toast, page`localStorage, page`sent
      ensures !isSubmitting
      ensures (TruthyText(ClientStorage.AuthToken(old(page.localStorage))) && response.Ok?) <==>
        toast == Some(Toast("Schedule updated", "Your stream schedule has been updated.", false))
      ensures TruthyText(ClientStorage.AuthToken(old(page.localStorage))) && response.Ok? ==>
        ClientStorage.CachedSchedule(page.localStorage) == Some(response.value)
      ensures !(TruthyText(ClientStorage.AuthToken(old(page.localStorage))) && response.Ok?) ==>
        page.localStorage == old(page.localStorage)
      ensures !(TruthyText(ClientStorage.AuthToken(old(page.localStorage))) && response.Ok?) <==>
        toast == Some(Toast("Error updating schedule", "There was a problem updating your schedule.", true))
      ensures TruthyText(ClientStorage.AuthToken(old(page.localStorage))) ==>
        page.sent == old(page.sent) + [SchedulePost(ClientStorage.AuthToken(old(page.localStorage)).value, FormInsert(data))]
      ensures !TruthyText(ClientStorage.AuthToken(old(page.localStorage))) ==> page.sent == old(page.sent)
    {
      isSubmitting := true;
      var result := ClientStorage.SaveSchedule(page, FormInsert(data), response);
      if result.Some? {
        toast := Some(Toast("Schedule updated", "Your stream schedule has been updated.", false));
      } else {
        toast := Some(Toast("Error updating schedule", "There was a problem updating your schedule.", true));
      }
      isSubmitting := false;
    }
  }
}
