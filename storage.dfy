/**
 * The two browser-storage slots the session lives in ("token" and "user"),
 * as every component of the application reads them.
 */
module Storage {
  import opened Wrappers
  import opened Js

  /** `JSON.parse(localStorage.getItem("user") || "null")` with the
      `catch { return null }` around it. The slot holds the parsed value;
      `None` stands for a missing, empty or unparseable entry. */
  function ReadStoredUser(slot: Option<JsVal>): (u: JsVal)
    ensures slot.None? ==> u == Null
    ensures slot.Some? ==> u == slot.value
    ensures !Truthy(u) <==> slot.None? || !Truthy(slot.value)
  {
    if slot.Some? then slot.value else Null
  }

  /** `localStorage.getItem("token")` is truthy. */
  predicate TokenPresent(token: Option<string>) {
    token.Some? && token.value != ""
  }

  /** `me?.role === "admin" || me?.rol === "admin"`: the permission test of
      the four list and form views (unlike the admin guard, it accepts the
      Spanish synonym `rol`). */
  function IsAdmin(me: JsVal): (r: bool)
    ensures r <==> Get(me, "role") == Str("admin") || Get(me, "rol") == Str("admin")
    ensures r ==> me.Obj?
  {
    StrictEq(Get(me, "role"), Str("admin")) || StrictEq(Get(me, "rol"), Str("admin"))
  }
}
