/** The parts of the browser the client code touches: `localStorage`, the
    class list of `document.body`, and the requests it sends. A response
    is an `Outcome` supplied by the caller, since the network is not part
    of the model. */
module Browser {
  import opened Js
  import opened Schema
  import opened ClientTypes

  /** A localStorage value, as the client reads it back. `Text` is a raw
      string that is not JSON (the stored token); the others are the
      stringified objects the client writes. */
  datatype Stored =
    | Text(text: string)
    | SettingsJson(fields: Patch)
    | AnnouncementsJson(list: seq<Announcement>)
    | ScheduleJson(schedule: StreamSchedule)

  /** `localStorage.getItem(key)` read as a plain string. */
  function StoredText(storage: map<string, Stored>, key: string): Option<string> {
    if key in storage && storage[key].Text? then Some(storage[key].text) else None
  }

  /** A string held in localStorage that passes `if (token)`: present and not empty. */
  predicate TruthyText(v: Option<string>) {
    v.Some? && v.value != ""
  }

  datatype Appearance = Light | Dark

  datatype Variant = Vibrant | Tint | Professional

  /** The body of a theme request; the radius is in hundredths. */
  datatype ThemeData = ThemeData(primary: string, appearance: Appearance, radius: int, variant: Variant)

  /** A request the page sends, with the bearer token it carries. */
  datatype Request =
    | ThemePost(token: string, theme: ThemeData)
    | SettingsPost(token: string, body: seq<(string, string)>)
    | AnnouncementPost(token: string, announcement: InsertAnnouncement)
    | AnnouncementDelete(token: string, id: int)
    | SchedulePost(token: string, schedule: InsertStreamSchedule)
    | VerifyPost(password: string)

  /** The result of `fetch`: a 2xx response with its parsed body, or
      Failed for any other status and for a network error. */
  datatype Outcome<T> = Ok(value: T) | Failed

  /** A toast notification: its title, its description, and whether it
      is shown as destructive. */
  datatype Toast = Toast(title: string, description: string, destructive: bool)

  /** One browser page: its storage, the body's classes, the requests sent. */
  class Page {
    var localStorage: map<string, Stored>
    var bodyClasses: set<string>
    var sent: seq<Request>

    constructor (storage: map<string, Stored>, classes: set<string>)
      ensures localStorage == storage && bodyClasses == classes && sent == []
    {
      localStorage := storage;
      bodyClasses := classes;
      sent := [];
    }

    /** `localStorage.setItem(key, value)`. */
    method SetItem(key: string, value: Stored)
      modifies this`localStorage
      ensures localStorage == old(localStorage)[key := value]
    {
      localStorage := localStorage[key := value];
    }

    /** `localStorage.removeItem(key)`. */
    method RemoveItem(key: string)
      modifies this`localStorage
      ensures localStorage == old(localStorage) - {key}
    {
      localStorage := localStorage - {key};
    }

    /** `fetch(...)`: the request is sent; its outcome is the caller's. */
    method Send(request: Request)
      modifies this`sent
      ensures sent == old(sent) + [request]
    {
      sent := sent + [request];
    }
  }
}
