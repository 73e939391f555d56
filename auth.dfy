/**
 * The sign-in server actions of the dashboard (ui/src/actions/auth.ts) over the
 * request's cookie jar and the subscribers table. A database read is given as its
 * outcome: the table's rows, or a failure when the query raises.
 */
module Auth {
  import opened Wrappers
  import opened Schema

  const LICENSE_COOKIE_NAME: string := "lck"
  const INVALID_KEY: string := "Please provide a valid key."
  const KEY_NOT_FOUND: string := "License key not found."

  datatype Cookie = Cookie(value: string, httpOnly: bool)

  /** The subscribers table as a query sees it: its rows, or the error the query raised. */
  type SubscribersRead = Result<seq<Subscriber>, string>

  /** How a server action ends: an error object for the form, or a redirect (thrown by `redirect`). */
  datatype ActionOutcome = FormError(error: string) | RedirectTo(location: string)

  /** Some subscriber's license is the uuid `key` spells. */
  predicate Licensed(table: seq<Subscriber>, key: string) {
    exists s :: s in table && SameLicense(s.license, key)
  }

  /** The cookies of the current request and response. */
  class CookieJar {
    var cookies: map<string, Cookie>

    constructor(initial: map<string, Cookie>)
      ensures cookies == initial
    {
      cookies := initial;
    }

    /**
     * `check`: false without a license cookie or when the lookup raises (a failed
     * read, or a cookie that is not uuid text), otherwise whether some subscriber
     * holds the cookie's license.
     */
    function Check(db: SubscribersRead): (ok: bool)
      reads this
      ensures ok <==> LICENSE_COOKIE_NAME in cookies && db.Success?
                      && Licensed(db.value, cookies[LICENSE_COOKIE_NAME].value)
    {
      if LICENSE_COOKIE_NAME !in cookies then false
      else match db
        case Failure(_) => false
        case Success(table) =>
          var subs := SelectByLicense(table, cookies[LICENSE_COOKIE_NAME].value);
          assert subs != [] ==> subs[0] in subs;
          |subs| > 0
    }

    /**
     * `signin` with the form's key: a missing or empty key, a key that is not uuid
     * text, an unknown key and a failed lookup end with an error and leave the jar
     * unchanged; a known key sets the http-only cookie to the first matching row's
     * license, as the column prints it, and redirects to the dashboard.
     */
    method Signin(key: Option<string>, db: SubscribersRead) returns (outcome: ActionOutcome)
      modifies this
      ensures key.None? || key.value == "" ==> outcome == FormError(INVALID_KEY) && cookies == old(cookies)
      ensures key.Some? && key.value != "" && db.Failure? ==>
                outcome == FormError(INVALID_KEY) && cookies == old(cookies)
      ensures key.Some? && key.value != "" && ParseUuid(key.value).None? ==>
                outcome == FormError(INVALID_KEY) && cookies == old(cookies)
      ensures key.Some? && key.value != "" && ParseUuid(key.value).Some? && db.Success? && !Licensed(db.value, key.value) ==>
                outcome == FormError(KEY_NOT_FOUND) && cookies == old(cookies)
      ensures key.Some? && key.value != "" && db.Success? && Licensed(db.value, key.value) ==>
                outcome == RedirectTo("/dashboard")
                && cookies == old(cookies)[LICENSE_COOKIE_NAME := Cookie(UuidText(SelectByLicense(db.value, key.value)[0].license), true)]
    {
      if key.None? || |key.value| == 0 {
        return FormError(INVALID_KEY);
      }
      if db.Failure? || ParseUuid(key.value).None? {
        return FormError(INVALID_KEY);
      }
      var subs := SelectByLicense(db.value, key.value);
      if |subs| == 0 {
        return FormError(KEY_NOT_FOUND);
      }
      var sub := subs[0];
      cookies := cookies[LICENSE_COOKIE_NAME := Cookie(UuidText(sub.license), true)];
      outcome := RedirectTo("/dashboard");
    }

    /** `signout`: the license cookie is deleted and the user is sent to the landing page. */
    method Signout() returns (outcome: ActionOutcome)
      modifies this
      ensures cookies == old(cookies) - {LICENSE_COOKIE_NAME}
      ensures outcome == RedirectTo("/")
    {
      cookies := cookies - {LICENSE_COOKIE_NAME};
      outcome := RedirectTo("/");
    }
  }

  /** After a successful sign-in, `check` on the same table holds. */
  method SigninThenCheck(jar: CookieJar, key: string, table: seq<Subscriber>) returns (ok: bool)
    requires key != "" && Licensed(table, key)
    modifies jar
    ensures ok
  {
    var outcome := jar.Signin(Some(key), Success(table));
    var sub := SelectByLicense(table, key)[0];
    UuidTextRoundTrip(sub.license);
    assert SameLicense(sub.license, UuidText(sub.license)) && sub in table;
    ok := jar.Check(Success(table));
  }

  /** After signing out, `check` fails whatever the table holds. */
  method SignoutThenCheck(jar: CookieJar, db: SubscribersRead) returns (ok: bool)
    modifies jar
    ensures !ok
  {
    var outcome := jar.Signout();
    ok := jar.Check(db);
  }
}
