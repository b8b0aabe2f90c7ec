/** client/src/components/admin/AnnouncementTab.tsx: the announcement form
    and its validation, and the tab's list of announcements, which a delete
    filters and a create reloads. */
module AnnouncementTab {
  import opened Js
  import opened Schema
  import opened ClientTypes
  import opened Browser
  import ClientStorage

  /** The form's values; `kind` is the form's `type` field. */
  datatype AnnouncementForm = AnnouncementForm(title: string, content: string, kind: string)

  const EmptyAnnouncementForm := AnnouncementForm("", "", "default")

  /** The three values of the form's `type` select. */
  predicate AnnouncementTypeValue(s: string) {
    s == "default" || s == "special" || s == "important"
  }

  /** The fields `announcementFormSchema` reports as invalid. */
  function AnnouncementFormErrors(f: AnnouncementForm): set<string> {
    (if |f.title| < 3 || |f.title| > 100 then {"title"} else {})
    + (if |f.content| < 10 || |f.content| > 500 then {"content"} else {})
    + (if !AnnouncementTypeValue(f.kind) then {"type"} else {})
  }

  predicate AnnouncementFormValid(f: AnnouncementForm) {
    AnnouncementFormErrors(f) == {}
  }

  /** The form is valid exactly when the title has 3 to 100 characters,
      the content 10 to 500, and the type is one of the three; each bound
      is reported on its own field, and the empty form is not valid. */
  lemma AnnouncementFormBounds(f: AnnouncementForm)
    ensures AnnouncementFormValid(f) <==>
      3 <= |f.title| <= 100 && 10 <= |f.content| <= 500 && AnnouncementTypeValue(f.kind)
    ensures "title" in AnnouncementFormErrors(f) <==> !(3 <= |f.title| <= 100)
    ensures "content" in AnnouncementFormErrors(f) <==> !(10 <= |f.content| <= 500)
    ensures "type" in AnnouncementFormErrors(f) <==> !AnnouncementTypeValue(f.kind)
    ensures AnnouncementFormErrors(EmptyAnnouncementForm) == {"title", "content"}
  {
    if !(3 <= |f.title| <= 100) {
      assert "title" in AnnouncementFormErrors(f);
    }
    if !(10 <= |f.content| <= 500) {
      assert "content" in AnnouncementFormErrors(f);
    }
    if !AnnouncementTypeValue(f.kind) {
      assert "type" in AnnouncementFormErrors(f);
    }
  }

  /** The record `saveAnnouncement` is given for valid form data. */
  function FormInsert(f: AnnouncementForm): InsertAnnouncement {
    InsertAnnouncement(f.title, f.content, Some(f.kind))
  }

  /** The length limits live only in the form: the server's schema accepts
      every body the form produces, and also titles the form refuses. */
  lemma FormStricterThanServer(f: AnnouncementForm)
    ensures AnnouncementFormValid(f) ==> ParseInsertAnnouncement(AnnouncementBody(FormInsert(f))) == Some(FormInsert(f))
    ensures var short := AnnouncementForm("Hi", "A long enough text", "default");
      !AnnouncementFormValid(short) && ParseInsertAnnouncement(AnnouncementBody(FormInsert(short))).Some?
  {
    ParseAnnouncementBody(FormInsert(f));
    var short := AnnouncementForm("Hi", "A long enough text", "default");
    assert "title" in AnnouncementFormErrors(short);
    ParseAnnouncementBody(FormInsert(short));
  }

  /** `announcements.filter(a => a.id !== id)`. */
  function WithoutId(list: seq<Announcement>, id: int): (r: seq<Announcement>)
    ensures |r| <= |list|
    ensures forall a :: a in r <==> a in list && a.id != id
  {
    if |list| == 0 then []
    else WithoutId(list[..|list| - 1], id) + (if list[|list| - 1].id != id then [list[|list| - 1]] else [])
  }

  /** Filtering keeps the order: it distributes over concatenation, and
      a list without the id comes back as it was. */
  lemma {:induction false} WithoutIdAppend(s: seq<Announcement>, t: seq<Announcement>, id: int)
    ensures WithoutId(s + t, id) == WithoutId(s, id) + WithoutId(t, id)
  {
    if |t| == 0 {
      assert s + t == s;
    } else {
      var n := |t| - 1;
      assert (s + t)[..|s + t| - 1] == s + t[..n];
      WithoutIdAppend(s, t[..n], id);
    }
  }

  lemma {:induction false} WithoutAbsentId(list: seq<Announcement>, id: int)
    requires forall i :: 0 <= i < |list| ==> list[i].id != id
    ensures WithoutId(list, id) == list
  {
    if |list| > 0 {
      WithoutAbsentId(list[..|list| - 1], id);
      assert list[..|list| - 1] + [list[|list| - 1]] == list;
    }
  }

  /** The tab's state. */
  class AnnouncementList {
    var announcements: seq<Announcement>
    var isLoading: bool
    var isSubmitting: bool
    var form: AnnouncementForm
    var toast: Option<Toast>

    constructor ()
      ensures announcements == [] && isLoading && !isSubmitting && form == EmptyAnnouncementForm && toast == None
    {
      announcements := [];
      isLoading := true;
      isSubmitting := false;
      form := EmptyAnnouncementForm;
      toast := None;
    }

    /** `loadAnnouncements()`: the fetched list, or the cached one. */
    method Load(page: Page, response: Outcome<seq<Announcement>>)
      modifies this`announcements, this`isLoading
      ensures announcements == (if response.Ok? then response.value else ClientStorage.CachedAnnouncements(page.localStorage))
      ensures !isLoading
    {
      isLoading := true;
      announcements := ClientStorage.FetchAnnouncements(page, response);
      isLoading := false;
    }

    /** `handleDeleteAnnouncement(id)`: on success exactly the entries with
      that id leave the list; on failure the list is kept. */
    method Delete(page: Page, id: int, response: Outcome<()>)
      modifies this`announcements, this`toast, page`sent
      ensures page.sent == old(page.sent) + (if TruthyText(ClientStorage.AuthToken(page.localStorage)) then [AnnouncementDelete(ClientStorage.AuthToken(page.localStorage).value, id)] else [])
      ensures TruthyText(ClientStorage.AuthToken(page.localStorage)) && response.Ok? ==>
        announcements == WithoutId(old(announcements), id) && toast == Some(Toast("Announcement deleted", "The announcement has been removed.", false))
      ensures !(TruthyText(ClientStorage.AuthToken(page.localStorage)) && response.Ok?) ==>
        announcements == old(announcements) &&
        toast == Some(Toast("Error deleting announcement", "There was a problem deleting the announcement.", true))
    {
      var success := ClientStorage.DeleteAnnouncement(page, id, response);
      if success {
        toast := Some(Toast("Announcement deleted", "The announcement has been removed.", false));
        announcements := WithoutId(announcements, id);
      } else {
        toast := Some(Toast("Error deleting announcement", "There was a problem deleting the announcement.", true));
      }
    }

    /** `onSubmitAnnouncement(data)`, run on valid form data only. A created
      announcement resets the form and reloads the list; otherwise the form
      and list stay. Either way the tab stops submitting. */
    method Submit(page: Page, data: AnnouncementForm, response: Outcome<Announcement>, reload: Outcome<seq<Announcement>>)
      requires AnnouncementFormValid(data)
      modifies this`announcements, this`isLoading, this`isSubmitting, this`form, this`toast, page`sent
      ensures !isSubmitting
      ensures page.sent == old(page.sent) + (if TruthyText(ClientStorage.AuthToken(page.localStorage)) then [AnnouncementPost(ClientStorage.AuthToken(page.localStorage).value, FormInsert(data))] else [])
      ensures TruthyText(ClientStorage.AuthToken(page.localStorage)) && response.Ok? ==>
        && form == EmptyAnnouncementForm
        && announcements == (if reload.Ok? then reload.value else ClientStorage.CachedAnnouncements(page.localStorage))
        && toast == Some(Toast("Announcement created", "Your announcement has been posted.", false))
      ensures !(TruthyText(ClientStorage.AuthToken(page.localStorage)) && response.Ok?) ==>
        form == old(form) && announcements == old(announcements) &&
        toast == Some(Toast("Error creating announcement", "There was a problem creating your announcement.", true))
    {
      isSubmitting := true;
      var result := ClientStorage.SaveAnnouncement(page, FormInsert(data), response);
      if result.Some? {
        toast := Some(Toast("Announcement created", "Your announcement has been posted.", false));
        form := EmptyAnnouncementForm;
        Load(page, reload);
      } else {
        toast := Some(Toast("Error creating announcement", "There was a problem creating your announcement.", true));
      }
      isSubmitting := false;
    }
  }
}
