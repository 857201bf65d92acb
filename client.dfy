/** The resource client of cf/cf.go: `CF.makeRequest`, one GET whose status
    decides between filling the caller's destination, an error and silence. */
module Client {
  import opened Wrappers
  import opened Resources

  /** A variable of the caller that `makeRequest` is handed a pointer to
      (Go's `dest interface{}`, always `&someRecord`). */
  class Box<T> {
    var value: T

    constructor (v: T)
      ensures value == v
    {
      value := v;
    }
  }

  /** The error text built at cf/cf.go:115 from the status line and the path
      (the base URL is not part of it). */
  function NotFoundError(status: string, path: string): (e: string)
    ensures |e| == |"invalid response ["| + |status| + |"] for GET "| + |path|
    ensures e[..|"invalid response ["|] == "invalid response ["
    ensures e[|e| - |path|..] == path
  {
    "invalid response [" + status + "] for GET " + path
  }

  /** Where the first ']' of `s + "] for GET " + p` sits when `s` has none. */
  lemma FirstClosingBracket(s: string, p: string)
    requires ']' !in s
    ensures (s + "] for GET " + p)[|s|] == ']'
    ensures forall j :: 0 <= j < |s| ==> (s + "] for GET " + p)[j] != ']'
  {
    var t := s + "] for GET " + p;
    assert forall j :: 0 <= j < |s| ==> t[j] == s[j];
  }

  /** The error text names its status line and its path: no two different
      pairs give the same message, provided neither status line contains
      the closing bracket (a standard status line such as "404 Not Found"
      has none, but a server may send a reason phrase that does). */
  lemma NotFoundErrorNamesStatusAndPath(s1: string, p1: string, s2: string, p2: string)
    requires ']' !in s1 && ']' !in s2
    requires NotFoundError(s1, p1) == NotFoundError(s2, p2)
    ensures s1 == s2 && p1 == p2
  {
    var pre := "invalid response [";
    var t1 := s1 + "] for GET " + p1;
    var t2 := s2 + "] for GET " + p2;
    assert NotFoundError(s1, p1) == pre + t1;
    assert NotFoundError(s2, p2) == pre + t2;
    assert t1 == (pre + t1)[|pre|..];
    assert t2 == (pre + t2)[|pre|..];
    FirstClosingBracket(s1, p1);
    FirstClosingBracket(s2, p2);
    assert |s1| == |s2|;
    assert s1 == t1[..|s1|];
    assert s2 == t2[..|s2|];
    assert p1 == t1[|s1| + 10..];
    assert p2 == t2[|s2| + 10..];
  }

  /** What a destination holding `prior` holds after `makeRequest` received
      `resp`: the decoded body on status 200, `prior` otherwise. */
  function Fetched<T>(resp: Response, prior: T, decode: Document -> T): T
  {
    if resp.statusCode == StatusOK then decode(resp.body) else prior
  }

  /** `CF.makeRequest` (cf/cf.go:108-119): GET `cf.url + path`; on 200 the
      body is decoded into `dest`, on 404 an error naming the status and the
      path is returned and `dest` is left alone, and on any other status
      nothing is reported and `dest` is left alone too. */
  method MakeRequest<T>(cf: CF, server: Server, path: string, dest: Box<T>, decode: Document -> T)
    returns (err: Option<string>)
    modifies dest
    ensures dest.value == Fetched(server.Respond(cf.url + path), old(dest.value), decode)
    ensures err == if server.Respond(cf.url + path).statusCode == StatusNotFound
                   then Some(NotFoundError(server.Respond(cf.url + path).status, path))
                   else None
  {
    var resp := server.Respond(cf.url + path);
    err := None;
    if resp.statusCode == StatusOK {
      dest.value := decode(resp.body);
    } else if resp.statusCode == StatusNotFound {
      err := Some(NotFoundError(resp.status, path));
    }
  }
}
