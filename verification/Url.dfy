/** Url::parse (src/Url.cpp) and the recomposition it inverts (section 3 of RFC 3986). */
module UrlModel {
  import opened Text

  datatype Url = Url(protocol: string, host: string, path: string, query: string, fragment: string)

  const EMPTY := Url("", "", "", "", "")

  /** How far the automaton has come; one value for the four flags, which are set in this order. */
  datatype Stage = InProtocol | InHost | InPath | InQuery | InFragment

  /** The automaton from some stage on; after the ':' of the protocol two more characters are skipped unseen. */
  function Scan(s: string, stage: Stage, u: Url): Url
    decreases |s|
  {
    if s == "" then u
    else
      var c, rest := s[0], s[1..];
      match stage
      case InProtocol =>
        if c == ':' then Scan(if |rest| < 2 then "" else rest[2..], InHost, u)
        else Scan(rest, InProtocol, u.(protocol := u.protocol + [c]))
      case InHost =>
        if c == '/' then Scan(rest, InPath, u.(path := u.path + "/"))
        else if c == '?' then Scan(rest, InQuery, u.(path := u.path + "/"))
        else if c == '#' then Scan(rest, InFragment, u.(path := u.path + "/"))
        else Scan(rest, InHost, u.(host := u.host + [c]))
      case InPath =>
        if c == '?' then Scan(rest, InQuery, u)
        else if c == '#' then Scan(rest, InFragment, u)
        else Scan(rest, InPath, u.(path := u.path + [c]))
      case InQuery =>
        if c == '#' then Scan(rest, InFragment, u)
        else Scan(rest, InQuery, u.(query := u.query + [c]))
      case InFragment =>
        Scan(rest, InFragment, u.(fragment := u.fragment + [c]))
  }

  function Parse(s: string): Url {
    Scan(s, InProtocol, EMPTY)
  }

  function Tail(query: string, fragment: string): string {
    (if query == "" then "" else "?" + query) + (if fragment == "" then "" else "#" + fragment)
  }

  function Compose(u: Url): string {
    u.protocol + "://" + u.host + u.path + Tail(u.query, u.fragment)
  }

  /** No component holds its own delimiter, and a query or fragment needs a path before it. */
  predicate WellFormed(u: Url) {
    && Free(u.protocol, ':')
    && Free(u.host, '/') && Free(u.host, '?') && Free(u.host, '#')
    && (u.path == "" ==> u.query == "" && u.fragment == "")
    && (u.path != "" ==> u.path[0] == '/')
    && Free(u.path, '?') && Free(u.path, '#')
    && Free(u.query, '#')
  }

  lemma {:induction false} ScanFragment(s: string, u: Url)
    ensures Scan(s, InFragment, u) == u.(fragment := u.fragment + s)
  {
    if s == "" {
      assert u.fragment + s == u.fragment;
    } else {
      ScanFragment(s[1..], u.(fragment := u.fragment + [s[0]]));
      assert u.fragment + [s[0]] + s[1..] == u.fragment + s;
    }
  }

  lemma {:induction false} ScanQuery(s: string, rest: string, u: Url)
    requires Free(s, '#')
    ensures Scan(s + rest, InQuery, u) == Scan(rest, InQuery, u.(query := u.query + s))
  {
    if s == "" {
      assert u.query + s == u.query && s + rest == rest;
    } else {
      ScanQuery(s[1..], rest, u.(query := u.query + [s[0]]));
      assert u.query + [s[0]] + s[1..] == u.query + s;
      assert (s + rest)[1..] == s[1..] + rest;
    }
  }

  lemma {:induction false} ScanPath(s: string, rest: string, u: Url)
    requires Free(s, '?') && Free(s, '#')
    ensures Scan(s + rest, InPath, u) == Scan(rest, InPath, u.(path := u.path + s))
  {
    if s == "" {
      assert u.path + s == u.path && s + rest == rest;
    } else {
      ScanPath(s[1..], rest, u.(path := u.path + [s[0]]));
      assert u.path + [s[0]] + s[1..] == u.path + s;
      assert (s + rest)[1..] == s[1..] + rest;
    }
  }

  lemma {:induction false} ScanHost(s: string, rest: string, u: Url)
    requires Free(s, '/') && Free(s, '?') && Free(s, '#')
    ensures Scan(s + rest, InHost, u) == Scan(rest, InHost, u.(host := u.host + s))
  {
    if s == "" {
      assert u.host + s == u.host && s + rest == rest;
    } else {
      ScanHost(s[1..], rest, u.(host := u.host + [s[0]]));
      assert u.host + [s[0]] + s[1..] == u.host + s;
      assert (s + rest)[1..] == s[1..] + rest;
    }
  }

  lemma {:induction false} ScanProtocol(s: string, rest: string, u: Url)
    requires Free(s, ':')
    ensures Scan(s + rest, InProtocol, u) == Scan(rest, InProtocol, u.(protocol := u.protocol + s))
  {
    if s == "" {
      assert u.protocol + s == u.protocol && s + rest == rest;
    } else {
      ScanProtocol(s[1..], rest, u.(protocol := u.protocol + [s[0]]));
      assert u.protocol + [s[0]] + s[1..] == u.protocol + s;
      assert (s + rest)[1..] == s[1..] + rest;
    }
  }

  function Hash(fragment: string): string {
    if fragment == "" then "" else "#" + fragment
  }

  lemma {:induction false} ScanHash(fragment: string, stage: Stage, u: Url)
    requires (stage.InPath? || stage.InQuery?) && u.fragment == ""
    ensures Scan(Hash(fragment), stage, u) == u.(fragment := fragment)
  {
    if fragment != "" {
      assert Hash(fragment)[1..] == fragment;
      ScanFragment(fragment, u);
      assert "" + fragment == fragment;
    }
  }

  /** After the path: query and fragment, each only with its delimiter. */
  lemma {:induction false} ScanTail(query: string, fragment: string, u: Url)
    requires Free(query, '#') && u.query == "" && u.fragment == ""
    ensures Scan(Tail(query, fragment), InPath, u) == u.(query := query, fragment := fragment)
  {
    if query == "" {
      assert Tail(query, fragment) == Hash(fragment);
      ScanHash(fragment, InPath, u);
    } else {
      var t := Tail(query, fragment);
      assert t[0] == '?' && t[1..] == query + Hash(fragment);
      ScanQuery(query, Hash(fragment), u);
      assert "" + query == query;
      ScanHash(fragment, InQuery, u.(query := query));
    }
  }

  /** From the end of the host on. */
  lemma {:induction false} ScanAfterHost(path: string, query: string, fragment: string, u: Url)
    requires path != "" && path[0] == '/' && Free(path, '?') && Free(path, '#') && Free(query, '#')
    requires u.path == "" && u.query == "" && u.fragment == ""
    ensures Scan(path + Tail(query, fragment), InHost, u) == u.(path := path, query := query, fragment := fragment)
  {
    var s, p := path + Tail(query, fragment), path[1..];
    assert s[0] == '/' && s[1..] == p + Tail(query, fragment);
    assert u.path + "/" == "/" && "/" + p == path;
    ScanPath(p, Tail(query, fragment), u.(path := "/"));
    ScanTail(query, fragment, u.(path := path));
  }

  /** Up to the end of the host. */
  lemma {:induction false} ScanUpToHost(protocol: string, host: string, rest: string)
    requires Free(protocol, ':') && Free(host, '/') && Free(host, '?') && Free(host, '#')
    ensures Scan(protocol + "://" + host + rest, InProtocol, EMPTY) ==
              Scan(rest, InHost, EMPTY.(protocol := protocol, host := host))
  {
    var more := "://" + (host + rest);
    assert protocol + "://" + host + rest == protocol + more;
    ScanProtocol(protocol, more, EMPTY);
    assert "" + protocol == protocol && "" + host == host;
    assert more[0] == ':' && more[1..][2..] == host + rest;
    ScanHost(host, rest, EMPTY.(protocol := protocol));
  }

  /** Parsing inverts recomposition. */
  lemma {:induction false} ParseCompose(u: Url)
    requires WellFormed(u)
    ensures Parse(Compose(u)) == u
  {
    var rest := u.path + Tail(u.query, u.fragment);
    assert Compose(u) == u.protocol + "://" + u.host + rest;
    ScanUpToHost(u.protocol, u.host, rest);
    if u.path == "" {
      assert rest == "";
    } else {
      ScanAfterHost(u.path, u.query, u.fragment, EMPTY.(protocol := u.protocol, host := u.host));
    }
  }

  /** The components collected so far, stage by stage. */
  predicate Collected(stage: Stage, u: Url) {
    && WellFormed(u.(query := "", fragment := "")) && Free(u.query, '#')
    && (stage.InProtocol? ==> u.host == "")
    && (stage.InProtocol? || stage.InHost? ==> u.path == "")
    && (stage.InPath? || stage.InQuery? || stage.InFragment? ==> u.path != "")
    && (!stage.InQuery? && !stage.InFragment? ==> u.query == "")
    && (!stage.InFragment? ==> u.fragment == "")
  }

  lemma {:induction false} ScanCollects(s: string, stage: Stage, u: Url)
    requires Collected(stage, u)
    ensures WellFormed(Scan(s, stage, u))
    decreases |s|
  {
    if s != "" {
      var c, rest := s[0], s[1..];
      match stage {
        case InProtocol =>
          if c == ':' {
            ScanCollects(if |rest| < 2 then "" else rest[2..], InHost, u);
          } else {
            ScanCollects(rest, InProtocol, u.(protocol := u.protocol + [c]));
          }
        case InHost =>
          var p := u.(path := u.path + "/");
          if c == '/' {
            ScanCollects(rest, InPath, p);
          } else if c == '?' {
            ScanCollects(rest, InQuery, p);
          } else if c == '#' {
            ScanCollects(rest, InFragment, p);
          } else {
            ScanCollects(rest, InHost, u.(host := u.host + [c]));
          }
        case InPath =>
          if c == '?' {
            ScanCollects(rest, InQuery, u);
          } else if c == '#' {
            ScanCollects(rest, InFragment, u);
          } else {
            ScanCollects(rest, InPath, u.(path := u.path + [c]));
          }
        case InQuery =>
          if c == '#' {
            ScanCollects(rest, InFragment, u);
          } else {
            ScanCollects(rest, InQuery, u.(query := u.query + [c]));
          }
        case InFragment =>
          ScanCollects(rest, InFragment, u.(fragment := u.fragment + [c]));
      }
    }
  }

  // ----- Addresses that do not come from components -----

  /** Without a ':' everything is the protocol. */
  lemma {:induction false} OnlyAProtocol(s: string)
    requires Free(s, ':')
    ensures Parse(s) == Url(s, "", "", "", "")
  {
    ScanProtocol(s, "", EMPTY);
    assert s + "" == s && "" + s == s;
  }

  /** What follows a ':' that is too close to the end is lost. */
  lemma {:induction false} NothingBehind(s: string, rest: string)
    requires Free(s, ':') && |rest| <= 2
    ensures Parse(s + ":" + rest) == Url(s, "", "", "", "")
  {
    var more := ":" + rest;
    assert s + ":" + rest == s + more;
    ScanProtocol(s, more, EMPTY);
    assert more[0] == ':' && more[1..] == rest && "" + s == s;
    assert |rest| == 2 ==> rest[2..] == "";
  }

  /** The two characters after the ':' may be any. */
  lemma {:induction false} TwoAreSkipped(protocol: string, skipped: string, rest: string)
    requires Free(protocol, ':') && |skipped| == 2
    ensures Parse(protocol + ":" + skipped + rest) == Parse(protocol + "://" + rest)
  {
    ScanProtocol(protocol, ":" + skipped + rest, EMPTY);
    ScanProtocol(protocol, "://" + rest, EMPTY);
    assert protocol + ":" + skipped + rest == protocol + (":" + skipped + rest);
    assert protocol + "://" + rest == protocol + ("://" + rest);
    assert (":" + skipped + rest)[1..][2..] == rest && ("://" + rest)[1..][2..] == rest;
  }

  /** A query or a fragment right behind the host: the path "/" is supplied. */
  lemma {:induction false} PathIsSupplied(protocol: string, host: string, query: string, fragment: string)
    requires Free(protocol, ':') && Free(host, '/') && Free(host, '?') && Free(host, '#') && Free(query, '#')
    ensures Parse(protocol + "://" + host + ("?" + query + Hash(fragment))) == Url(protocol, host, "/", query, fragment)
    ensures Parse(protocol + "://" + host + ("#" + fragment)) == Url(protocol, host, "/", "", fragment)
  {
    ScanUpToHost(protocol, host, "?" + query + Hash(fragment));
    ScanUpToHost(protocol, host, "#" + fragment);
    var u := Url(protocol, host, "/", "", "");
    assert "" + "/" == "/";
    assert ("?" + query + Hash(fragment))[1..] == query + Hash(fragment) && ("#" + fragment)[1..] == fragment;
    ScanQuery(query, Hash(fragment), u);
    ScanHash(fragment, InQuery, u.(query := "" + query));
    ScanFragment(fragment, u);
    assert "" + query == query && "" + fragment == fragment;
  }

  /** Whatever is parsed is well-formed, so exactly the well-formed ones survive the round trip. */
  lemma {:induction false} RoundTripExactlyWhen(u: Url)
    ensures Parse(Compose(u)) == u <==> WellFormed(u)
  {
    if WellFormed(u) {
      ParseCompose(u);
    }
    ScanCollects(Compose(u), InProtocol, EMPTY);
  }

  /** Parsing, recomposing and parsing again changes nothing, for every text. */
  lemma {:induction false} ParseIsStable(s: string)
    ensures Parse(Compose(Parse(s))) == Parse(s)
  {
    ScanCollects(s, InProtocol, EMPTY);
    ParseCompose(Parse(s));
  }

  /** Components that do not come back: a query without a path. */
  lemma {:induction false} QueryNeedsAPath()
    ensures var u := Url("http", "h", "", "q", ""); Parse(Compose(u)) != u
  {
    RoundTripExactlyWhen(Url("http", "h", "", "q", ""));
  }
}

/** The Url object with its character loop. */
module UrlParser {
  import opened UrlModel

  class Parser {
    var protocol: string
    var host: string
    var path: string
    var query: string
    var fragment: string

    ghost function State(): Url
      reads this
    {
      Url(protocol, host, path, query, fragment)
    }

    constructor (url: string)
      ensures State() == UrlModel.Parse(url)
    {
      new;
      Parse(url);
    }

    method Parse(url: string)
      modifies this
      ensures State() == UrlModel.Parse(url)
    {
      protocol, host, path, query, fragment := "", "", "", "", "";
      var isProtocolParsed, isHostParsed, isPathParsed, isQueryParsed := false, false, false, false;
      var i := 0;
      assert url[0..] == url;
      while i < |url|
        invariant isHostParsed ==> isProtocolParsed
        invariant isPathParsed ==> isHostParsed
        invariant isQueryParsed ==> isPathParsed
        invariant Scan(url[if i <= |url| then i else |url|..],
                       StageOf(isProtocolParsed, isHostParsed, isPathParsed, isQueryParsed), State()) ==
                  UrlModel.Parse(url)
        decreases |url| - i
      {
        var c := url[i];
        assert url[i..][1..] == url[i + 1..];
        if !isProtocolParsed {
          if c == ':' {
            isProtocolParsed := true;
            assert i + 3 <= |url| ==> url[i + 1..][2..] == url[i + 3..];
            i := i + 2;
          } else {
            protocol := protocol + [c];
          }
        } else if !isHostParsed {
          if c == '/' {
            isHostParsed := true;
            path := path + "/";
          } else if c == '?' {
            isHostParsed, isPathParsed := true, true;
            path := path + "/";
          } else if c == '#' {
            isHostParsed, isPathParsed, isQueryParsed := true, true, true;
            path := path + "/";
          } else {
            host := host + [c];
          }
        } else if !isPathParsed {
          if c == '?' {
            isPathParsed := true;
          } else if c == '#' {
            isPathParsed, isQueryParsed := true, true;
          } else {
            path := path + [c];
          }
        } else if !isQueryParsed {
          if c == '#' {
            isQueryParsed := true;
          } else {
            query := query + [c];
          }
        } else {
          fragment := fragment + [c];
        }
        i := i + 1;
      }
    }

    static function StageOf(protocol: bool, host: bool, path: bool, query: bool): Stage {
      if !protocol then InProtocol
      else if !host then InHost
      else if !path then InPath
      else if !query then InQuery
      else InFragment
    }
  }
}
