/**
 * The CORS origin check of the main server (server/server.ts): a request
 * without an origin, or whose origin mentions a local host or one of the two
 * hosting platforms anywhere in its text, is allowed; every other origin is
 * refused.
 */
module Cors {
  import opened Wrappers
  import opened Strs
  import Requests

  datatype Verdict = Allow | Refuse(message: string)

  /** The substrings that admit an origin, in the order they are checked. */
  const Trusted: seq<string> := ["localhost", "127.0.0.1", ".vercel.app", ".onrender.com"]

  ghost predicate MentionsTrusted(origin: string)
  {
    exists i :: 0 <= i < |Trusted| && Contains(origin, Trusted[i])
  }

  /** The `origin` callback: `callback(null, true)` or `callback(new Error(...))`. */
  function Check(origin: Option<string>): (r: Verdict)
    ensures !Requests.Truthy(origin) ==> r == Allow
    ensures Requests.Truthy(origin) ==> (r == Allow <==> MentionsTrusted(origin.value))
    ensures r.Refuse? ==> r.message == "Not allowed by CORS"
  {
    if !Requests.Truthy(origin) then Allow
    else
      var o := origin.value;
      assert Trusted[0] == "localhost" && Trusted[1] == "127.0.0.1";
      assert Trusted[2] == ".vercel.app" && Trusted[3] == ".onrender.com";
      if Contains(o, "localhost") || Contains(o, "127.0.0.1") then Allow
      else if Contains(o, ".vercel.app") || Contains(o, ".onrender.com") then Allow
      else
        assert !MentionsTrusted(o) by {
          forall i | 0 <= i < |Trusted| ensures !Contains(o, Trusted[i]) {
            assert Trusted[i] in {"localhost", "127.0.0.1", ".vercel.app", ".onrender.com"};
          }
        }
        Refuse("Not allowed by CORS")
  }

  /**
   * Matching is by substring, not by host: any text placed around an allowed
   * origin keeps it allowed, whatever host the result names.
   */
  lemma AllowedWhateverSurrounds(a: string, origin: string, b: string)
    requires |origin| > 0 && Check(Some(origin)) == Allow
    ensures Check(Some(a + origin + b)) == Allow
  {
    var i :| 0 <= i < |Trusted| && Contains(origin, Trusted[i]);
    ContainsWidened(a, origin, b, Trusted[i]);
  }

  /** For instance, a host under someone else's domain that starts with `localhost` is allowed. */
  lemma LookalikeHostAllowed()
    ensures Check(Some("https://localhost.example.org")) == Allow
  {
    ContainsInfix("https://", "localhost", ".example.org");
    assert "https://" + "localhost" + ".example.org" == "https://localhost.example.org";
    assert Contains("https://localhost.example.org", Trusted[0]);
  }

}
