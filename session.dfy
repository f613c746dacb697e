/** Browser storage as the components see it: a string-to-string map reached
    through `getItem`, `setItem` and `removeItem`, and the two keys the
    application keeps in it. */
module Session {
  import opened Wrappers

  /** Key of the logged-in flag; logged in when it holds exactly "true". */
  const LoggedInKey := "jds_logged_in"
  /** Key of the JSON-encoded user info. */
  const UserKey := "jds_user"

  /** What is stored about the logged-in user (username and role). */
  datatype UserInfo = UserInfo(username: string, role: string)

  /** `localStorage`, shared by the App shell and the login page. */
  class Storage {
    var items: map<string, string>

    constructor (initial: map<string, string>)
      ensures items == initial
    {
      items := initial;
    }

    method GetItem(key: string) returns (v: Option<string>)
      ensures v.Some? <==> key in items
      ensures v.Some? ==> v.value == items[key]
    {
      v := if key in items then Some(items[key]) else None;
    }

    method SetItem(key: string, value: string)
      modifies this
      ensures items == old(items)[key := value]
    {
      items := items[key := value];
    }

    method RemoveItem(key: string)
      modifies this
      ensures items == old(items) - {key}
    {
      items := items - {key};
    }
  }
}
