/**
  `pathlib.Path` on POSIX systems, as far as `_coerce_path` needs it: a path
  is its root (`""`, `"/"` or `"//"`) and its parts. Building a path from
  text splits it at every `/` and drops empty and `.` parts, so paths that
  differ only in repeated or trailing slashes or `.` parts are equal, and
  `str(path)` gives the normal form back.
*/
module Paths {
  import Text

  datatype Path = Path(root: string, parts: seq<string>)

  /** The text between the slashes of `s`, empty pieces included: `s.split("/")`. */
  function Segments(s: string): (r: seq<string>)
    ensures |r| >= 1
  {
    if s == "" then [""]
    else
      var rest := Segments(s[1..]);
      if s[0] == '/' then [""] + rest else [[s[0]] + rest[0]] + rest[1..]
  }

  /** The parts `pathlib` keeps: every piece but the empty ones and `.`. */
  function Kept(pieces: seq<string>): (r: seq<string>)
    ensures forall i :: 0 <= i < |r| ==> r[i] in pieces && r[i] != "" && r[i] != "."
  {
    if pieces == [] then []
    else (if pieces[0] == "" || pieces[0] == "." then [] else [pieces[0]]) + Kept(pieces[1..])
  }

  /**
    The root POSIX pathlib keeps: exactly two leading slashes are kept as
    they are, one or three and more become one.
  */
  function RootOf(s: string): (r: string)
    ensures r in {"", "/", "//"}
  {
    if Text.StartsWith(s, "//") && !Text.StartsWith(s, "///") then "//"
    else if Text.StartsWith(s, "/") then "/"
    else ""
  }

  /** `Path(s)`. */
  function Parse(s: string): (p: Path)
    ensures Normal(p)
  {
    var parts := Kept(Segments(s));
    SegmentsNoSlash(s);
    Path(RootOf(s), parts)
  }

  /** `str(p)`: the root and the parts joined by `/`, or `.` for the empty relative path. */
  function ToText(p: Path): string {
    if p.root == "" && p.parts == [] then "." else p.root + Text.Join("/", p.parts)
  }

  /** What `Parse` can produce. */
  predicate Normal(p: Path) {
    && p.root in {"", "/", "//"}
    && forall i :: 0 <= i < |p.parts| ==> p.parts[i] != "" && p.parts[i] != "." && '/' !in p.parts[i]
  }

  lemma {:induction false} SegmentsNoSlash(s: string)
    ensures forall i :: 0 <= i < |Segments(s)| ==> '/' !in Segments(s)[i]
  {
    if s != "" {
      SegmentsNoSlash(s[1..]);
    }
  }

  /** Splitting at a slash splits the pieces. */
  lemma {:induction false} SegmentsAppend(a: string, b: string)
    ensures Segments(a + "/" + b) == Segments(a) + Segments(b)
  {
    if a == "" {
      assert ("/" + b)[1..] == b;
    } else {
      assert (a + "/" + b)[1..] == a[1..] + "/" + b;
      SegmentsAppend(a[1..], b);
    }
  }

  /** Text without a slash is one piece. */
  lemma {:induction false} SegmentsOne(s: string)
    requires '/' !in s
    ensures Segments(s) == [s]
  {
    if s != "" {
      assert s[1..] == s[1..];
      SegmentsOne(s[1..]);
      assert [s[0]] + s[1..] == s;
    }
  }

  /** Joining slash-free parts and splitting again gives the parts back. */
  lemma {:induction false} SegmentsOfJoin(parts: seq<string>)
    requires parts != []
    requires forall i :: 0 <= i < |parts| ==> '/' !in parts[i]
    ensures Segments(Text.Join("/", parts)) == parts
  {
    if |parts| == 1 {
      SegmentsOne(parts[0]);
    } else {
      SegmentsOfJoin(parts[1..]);
      SegmentsAppend(parts[0], Text.Join("/", parts[1..]));
      SegmentsOne(parts[0]);
      assert parts == [parts[0]] + parts[1..];
    }
  }

  lemma {:induction false} KeptAppend(a: seq<string>, b: seq<string>)
    ensures Kept(a + b) == Kept(a) + Kept(b)
  {
    if a == [] {
      assert a + b == b;
    } else {
      assert (a + b)[1..] == a[1..] + b;
      KeptAppend(a[1..], b);
    }
  }

  lemma {:induction false} KeptAll(parts: seq<string>)
    requires forall i :: 0 <= i < |parts| ==> parts[i] != "" && parts[i] != "."
    ensures Kept(parts) == parts
  {
    if parts != [] {
      KeptAll(parts[1..]);
      assert parts == [parts[0]] + parts[1..];
    }
  }

  lemma {:induction false} JoinStart(parts: seq<string>)
    requires parts != [] && parts[0] != "" && '/' !in parts[0]
    ensures |Text.Join("/", parts)| > 0 && Text.Join("/", parts)[0] == parts[0][0]
  {
  }

  lemma {:induction false} NoRoot(t: string)
    requires |t| > 0 && t[0] != '/'
    ensures RootOf(t) == ""
  {
    assert t[..1][0] == t[0];
    if |t| >= 2 {
      assert t[..2][0] == t[0];
    }
  }

  lemma {:induction false} OneSlashRoot(rest: string)
    requires rest == "" || rest[0] != '/'
    ensures RootOf("/" + rest) == "/"
  {
    var t := "/" + rest;
    assert t[..1] == "/";
    if rest != "" {
      assert t[..2][1] == rest[0];
    }
  }

  lemma {:induction false} TwoSlashRoot(rest: string)
    requires rest == "" || rest[0] != '/'
    ensures RootOf("//" + rest) == "//"
  {
    var t := "//" + rest;
    assert t[..2] == "//";
    if rest != "" {
      assert t[..3][2] == rest[0];
    }
  }

  /** The root is read back from the text. */
  lemma {:induction false} RootOfText(p: Path)
    requires Normal(p)
    ensures RootOf(ToText(p)) == p.root
  {
    var t := ToText(p);
    var j := Text.Join("/", p.parts);
    if p.parts != [] {
      JoinStart(p.parts);
      assert j[0] != '/' by { assert j[0] == p.parts[0][0] && p.parts[0][0] in p.parts[0]; }
    } else {
      assert j == "";
    }
    if p.root == "" {
      if p.parts == [] {
        assert t == ".";
      } else {
        assert t == j;
      }
      NoRoot(t);
    } else if p.root == "/" {
      assert t == "/" + j;
      OneSlashRoot(j);
    } else {
      assert t == "//" + j;
      TwoSlashRoot(j);
    }
  }

  /** The kept pieces of joined parts are the parts. */
  lemma {:induction false} KeptOfJoin(parts: seq<string>)
    requires forall i :: 0 <= i < |parts| ==> parts[i] != "" && parts[i] != "." && '/' !in parts[i]
    ensures Kept(Segments(Text.Join("/", parts))) == parts
  {
    if parts == [] {
      assert Segments("") == [""];
    } else {
      SegmentsOfJoin(parts);
      KeptAll(parts);
    }
  }

  /** Leading slashes add only empty pieces, which are not kept. */
  lemma {:induction false} KeptAfterSlash(j: string)
    ensures Kept(Segments("/" + j)) == Kept(Segments(j))
  {
    assert "/" + j == "" + "/" + j;
    SegmentsAppend("", j);
    KeptAppend([""], Segments(j));
  }

  /** The parts are read back from the text. */
  lemma {:induction false} PartsOfText(p: Path)
    requires Normal(p)
    ensures Kept(Segments(ToText(p))) == p.parts
  {
    var j := Text.Join("/", p.parts);
    KeptOfJoin(p.parts);
    if p.root == "" && p.parts == [] {
      SegmentsOne(".");
    } else if p.root == "/" {
      assert ToText(p) == "/" + j;
      KeptAfterSlash(j);
    } else if p.root == "//" {
      assert ToText(p) == "/" + ("/" + j);
      KeptAfterSlash("/" + j);
      KeptAfterSlash(j);
    } else {
      assert ToText(p) == j;
    }
  }

  /** `Path(str(p)) == p` for every path `Parse` can produce. */
  lemma {:induction false} ParseToText(p: Path)
    requires Normal(p)
    ensures Parse(ToText(p)) == p
  {
    RootOfText(p);
    PartsOfText(p);
  }

  /** Building a path from its own text changes nothing: the form `Parse` gives is normal. */
  lemma {:induction false} ParseIdempotent(s: string)
    ensures Parse(ToText(Parse(s))) == Parse(s)
  {
    ParseToText(Parse(s));
  }

  lemma {:induction false} DoubledSlashSegments(a: string, b: string)
    requires '/' !in a && '/' !in b
    ensures Segments(a + "/" + ("" + "/" + (b + "/" + ""))) == [a, "", b, ""]
    ensures Segments(a + "/" + b) == [a, b]
  {
    SegmentsOne(a);
    SegmentsOne(b);
    SegmentsOne("");
    SegmentsAppend(b, "");
    SegmentsAppend("", b + "/" + "");
    SegmentsAppend(a, "" + "/" + (b + "/" + ""));
    SegmentsAppend(a, b);
  }

  lemma {:induction false} RedundantSegments()
    ensures Segments("conf//a.json/") == ["conf", "", "a.json", ""]
    ensures Segments("conf/a.json") == ["conf", "a.json"]
  {
    DoubledSlashSegments("conf", "a.json");
    assert "conf//a.json/" == "conf" + "/" + ("" + "/" + ("a.json" + "/" + ""));
    assert "conf/a.json" == "conf" + "/" + "a.json";
  }

  lemma {:induction false} KeptSkipsEmpty(a: string, b: string)
    requires a != "" && a != "." && b != "" && b != "."
    ensures Kept([a, "", b, ""]) == [a, b]
  {
    assert Kept([""]) == [] by { assert [""][1..] == []; }
    assert Kept([b, ""]) == [b] + Kept([""]) by { assert [b, ""][1..] == [""]; }
    assert Kept(["", b, ""]) == Kept([b, ""]) by { assert ["", b, ""][1..] == [b, ""]; }
    assert Kept([a, "", b, ""]) == [a] + Kept(["", b, ""]) by { assert [a, "", b, ""][1..] == ["", b, ""]; }
  }

  lemma {:induction false} RedundantKept()
    ensures Kept(["conf", "", "a.json", ""]) == ["conf", "a.json"]
  {
    KeptSkipsEmpty("conf", "a.json");
  }

  /** Repeated and trailing slashes are dropped. */
  lemma {:induction false} RedundantSlashes()
    ensures Parse("conf//a.json/") == Parse("conf/a.json") == Path("", ["conf", "a.json"])
  {
    RedundantSegments();
    RedundantKept();
    KeptAll(["conf", "a.json"]);
    NoRoot("conf//a.json/");
    NoRoot("conf/a.json");
  }

  /** A leading `.` part is dropped, and the empty text is `.`. */
  lemma {:induction false} DotParts()
    ensures Parse("./x") == Path("", ["x"])
    ensures ToText(Parse("")) == "."
  {
    SegmentsOne(".");
    SegmentsOne("x");
    SegmentsAppend(".", "x");
    assert Segments("./x") == [".", "x"] by { assert "./x" == "." + "/" + "x"; }
    KeptAppend(["."], ["x"]);
    NoRoot("./x");
  }
}
