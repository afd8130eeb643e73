/**
 * The part of the servlet API that the cookie stores touch: a request's
 * cookies (mutable objects, changed in place by the stores), and a response
 * that records, in order, every header and cookie added to it.
 */
module Servlet {
  import opened Wrappers

  /** A `javax.servlet.http.Cookie`: its name is fixed, its value and max-age are not. */
  class Cookie {
    const name: string
    var value: string
    var maxAge: int

    /** `new Cookie(name, value)`; the servlet default max-age -1 means "until the browser closes". */
    constructor (name: string, value: string)
      ensures this.name == name && this.value == value && maxAge == -1
    {
      this.name := name;
      this.value := value;
      maxAge := -1;
    }
  }

  /** What a response carries back to the browser, in the order it was added. */
  datatype Emitted =
    | HeaderLine(header: string, text: string)             // `addHeader(header, text)`
    | CookieLine(name: string, value: string, maxAge: int) // `addCookie(c)`, as `c` was when added

  class Response {
    var out: seq<Emitted>

    constructor ()
      ensures out == []
    {
      out := [];
    }

    method AddHeader(header: string, text: string)
      modifies this
      ensures out == old(out) + [HeaderLine(header, text)]
    {
      out := out + [HeaderLine(header, text)];
    }

    method AddCookie(c: Cookie)
      modifies this
      ensures out == old(out) + [CookieLine(c.name, c.value, c.maxAge)]
    {
      out := out + [CookieLine(c.name, c.value, c.maxAge)];
    }
  }

  /** A request's cookie array (`getCookies()`); the array itself is never replaced. */
  class Request {
    const cookies: seq<Cookie>

    constructor (cookies: seq<Cookie>)
      ensures this.cookies == cookies
    {
      this.cookies := cookies;
    }
  }

  /**
   * The position of the first cookie called `name`, or `None` when no cookie
   * has that name: the `filter(name.equals(c.getName())).findFirst()` lookup.
   */
  function FirstNamed(cookies: seq<Cookie>, name: string): (r: Option<nat>)
    ensures r.None? <==> forall j :: 0 <= j < |cookies| ==> cookies[j].name != name
    ensures r.Some? ==> r.value < |cookies| && cookies[r.value].name == name
    ensures r.Some? ==> forall j :: 0 <= j < r.value ==> cookies[j].name != name
  {
    if |cookies| == 0 then None
    else if cookies[0].name == name then Some(0)
    else match FirstNamed(cookies[1..], name)
      case None => None
      case Some(i) => Some(i + 1)
  }
}
