/**
 * The credential check of the `BasicAuth` wrapper around the master routes
 * (the "Basic" scheme of section 2 of RFC 7617): the `Authorization` header
 * must start with `Basic `, the rest must decode as standard base64, and the
 * decoded bytes, split at their first colon, must be exactly the configured
 * user and password.
 */
module Auth {
  import opened Types
  import Base64

  const BASIC_PREFIX: string := "Basic "

  /** The byte `:`. */
  const COLON: byte := 58

  /** The challenge sent with a refusal. */
  const CHALLENGE: string := "Basic realm=Restricted"

  predicate HasPrefix(s: string, prefix: string) { |prefix| <= |s| && s[..|prefix|] == prefix }

  /**
   * `bytes.SplitN(s, [sep], 2)` when it has two parts: the bytes before the
   * first `sep` and all bytes after it; `None` when `sep` does not occur.
   */
  function SplitFirst(s: seq<byte>, sep: byte): (r: Option<(seq<byte>, seq<byte>)>)
    ensures r.None? <==> sep !in s
    ensures r.Some? ==> s == r.value.0 + [sep] + r.value.1 && sep !in r.value.0
  {
    if sep !in s then None
    else if s[0] == sep then Some(([], s[1..]))
    else
      match SplitFirst(s[1..], sep)
      case Some((before, after)) => Some(([s[0]] + before, after))
  }

  /** The split at the first separator is the only split whose left part has no separator. */
  lemma SplitFirstUnique(s: seq<byte>, sep: byte, before: seq<byte>, after: seq<byte>)
    requires s == before + [sep] + after && sep !in before
    ensures SplitFirst(s, sep) == Some((before, after))
  {
    assert s[|before|] == sep;
    var (b', a') := SplitFirst(s, sep).value;
    assert s[|b'|] == sep;
    assert b' == s[..|before|] == before;
    assert a' == s[|before| + 1..] == after;
  }

  /** The check of the wrapper, as the code performs it. */
  predicate Authorized(header: string, user: seq<byte>, pass: seq<byte>)
  {
    && HasPrefix(header, BASIC_PREFIX)
    && match Base64.Decode(header[|BASIC_PREFIX|..])
       case None => false
       case Some(payload) =>
         match SplitFirst(payload, COLON)
         case None => false
         case Some((u, p)) => u == user && p == pass
  }

  /**
   * A header is accepted exactly when it is `Basic ` followed by text that
   * decodes to `user:pass` and the user contains no colon; the password may.
   */
  lemma AuthorizedIff(header: string, user: seq<byte>, pass: seq<byte>)
    ensures Authorized(header, user, pass) <==>
      && COLON !in user
      && HasPrefix(header, BASIC_PREFIX)
      && Base64.Decode(header[|BASIC_PREFIX|..]) == Some(user + [COLON] + pass)
  {
    if HasPrefix(header, BASIC_PREFIX) && COLON !in user {
      SplitFirstUnique(user + [COLON] + pass, COLON, user, pass);
    }
  }

  /**
   * A client that sends `Basic ` and the base64 of `user:pass` is let in,
   * unless the user name itself contains a colon, which no header can then match.
   */
  lemma EncodedCredentialsAccepted(user: seq<byte>, pass: seq<byte>)
    ensures Authorized(BASIC_PREFIX + Base64.Encode(user + [COLON] + pass), user, pass) <==> COLON !in user
  {
    var header := BASIC_PREFIX + Base64.Encode(user + [COLON] + pass);
    assert header[..|BASIC_PREFIX|] == BASIC_PREFIX;
    assert header[|BASIC_PREFIX|..] == Base64.Encode(user + [COLON] + pass);
    Base64.DecodeEncode(user + [COLON] + pass);
    AuthorizedIff(header, user, pass);
  }

  /** What the wrapper does with a request: call the wrapped handler, or refuse it. */
  datatype Gate = Delegate | Refuse(status: int, wwwAuthenticate: string, body: string)

  /**
   * The wrapper: the inner handler runs exactly for the headers described by
   * `AuthorizedIff`; every other request gets 401 with the `Basic` challenge.
   */
  function BasicAuth(header: string, user: seq<byte>, pass: seq<byte>): (g: Gate)
    ensures g.Delegate? <==>
      && COLON !in user
      && HasPrefix(header, BASIC_PREFIX)
      && Base64.Decode(header[|BASIC_PREFIX|..]) == Some(user + [COLON] + pass)
    ensures g.Refuse? ==> g.status == 401 && g.wwwAuthenticate == CHALLENGE
  {
    AuthorizedIff(header, user, pass);
    if Authorized(header, user, pass) then Delegate
    else Refuse(401, CHALLENGE, "Unauthorized")
  }
}
