/**
  Rendering of certificate records as `ip:port` lines; a record whose port
  does not normalise is skipped with a warning.
 */
module Output {
  import opened Results
  import opened Decimal
  import opened Port

  datatype Certificate = Certificate(
    ip: string,
    port: Option<JsonValue>,
    subjectCN: string,
    subjectOrg: string,
    timestamp: string)

  /** The warning logged for a skipped record: its IP and the port error. */
  datatype Warning = Warning(ip: string, cause: PortError)

  /** The values present in a sequence of options, in order. */
  function Present<T>(xs: seq<Option<T>>): seq<T>
    decreases |xs|
  {
    if xs == [] then []
    else Present(xs[..|xs| - 1]) + (if xs[|xs| - 1].Some? then [xs[|xs| - 1].value] else [])
  }

  /** The line printed for one record, if its port normalises. */
  function Rendered(c: Certificate): Option<string> {
    match ParsePort(c.port)
    case Ok(p) => Some(c.ip + ":" + FormatInt(p))
    case Err(_) => None
  }

  /** The warning logged for one record, if its port does not normalise. */
  function Complaint(c: Certificate): Option<Warning> {
    match ParsePort(c.port)
    case Ok(_) => None
    case Err(e) => Some(Warning(c.ip, e))
  }

  function Renderings(cs: seq<Certificate>): seq<Option<string>> {
    seq(|cs|, k requires 0 <= k < |cs| => Rendered(cs[k]))
  }

  function Complaints(cs: seq<Certificate>): seq<Option<Warning>> {
    seq(|cs|, k requires 0 <= k < |cs| => Complaint(cs[k]))
  }

  /** The lines printed for a run of records, in record order. */
  function PrintedLines(cs: seq<Certificate>): seq<string> {
    Present(Renderings(cs))
  }

  /** The warnings logged for a run of records, in record order. */
  function Warnings(cs: seq<Certificate>): seq<Warning> {
    Present(Complaints(cs))
  }

  /** The output loop over all gathered records, with `continue` on a port error. */
  method CertificateLines(cs: seq<Certificate>) returns (lines: seq<string>, warnings: seq<Warning>)
    ensures lines == PrintedLines(cs)
    ensures warnings == Warnings(cs)
  {
    lines, warnings := [], [];
    for i := 0 to |cs|
      invariant lines == PrintedLines(cs[..i])
      invariant warnings == Warnings(cs[..i])
    {
      assert Renderings(cs[..i + 1])[..i] == Renderings(cs[..i]);
      assert Complaints(cs[..i + 1])[..i] == Complaints(cs[..i]);
      var certificate := cs[i];
      var port := ParsePort(certificate.port);
      if port.Err? {
        warnings := warnings + [Warning(certificate.ip, port.error)];
        continue;
      }
      lines := lines + [certificate.ip + ":" + FormatInt(port.value)];
    }
    assert cs[..|cs|] == cs;
  }

  lemma {:induction false} PresentAppend<T>(a: seq<Option<T>>, b: seq<Option<T>>)
    ensures Present(a + b) == Present(a) + Present(b)
    decreases |b|
  {
    if b == [] {
      assert a + b == a;
    } else {
      var b' := b[..|b| - 1];
      assert (a + b)[..|a + b| - 1] == a + b';
      assert (a + b)[|a + b| - 1] == b[|b| - 1];
      PresentAppend(a, b');
    }
  }

  lemma PresentSingleton<T>(x: Option<T>)
    ensures Present([x]) == if x.Some? then [x.value] else []
  {
    assert [x][..0] == [];
  }

  lemma {:induction false} PresentAllSome<T>(xs: seq<Option<T>>)
    requires forall k :: 0 <= k < |xs| ==> xs[k].Some?
    ensures |Present(xs)| == |xs|
    ensures forall k :: 0 <= k < |xs| ==> Present(xs)[k] == xs[k].value
    decreases |xs|
  {
    if xs != [] {
      PresentAllSome(xs[..|xs| - 1]);
    }
  }

  lemma {:induction false} PresentComplement<T, U>(xs: seq<Option<T>>, ys: seq<Option<U>>)
    requires |xs| == |ys|
    requires forall k :: 0 <= k < |xs| ==> (xs[k].Some? <==> ys[k].None?)
    ensures |Present(xs)| + |Present(ys)| == |xs|
    decreases |xs|
  {
    if xs != [] {
      PresentComplement(xs[..|xs| - 1], ys[..|ys| - 1]);
    }
  }

  lemma {:induction false} PresentSound<T>(xs: seq<Option<T>>, i: nat)
    requires i < |Present(xs)|
    ensures exists k :: 0 <= k < |xs| && xs[k] == Some(Present(xs)[i])
    decreases |xs|
  {
    var init := xs[..|xs| - 1];
    if i < |Present(init)| {
      PresentSound(init, i);
      var k :| 0 <= k < |init| && init[k] == Some(Present(init)[i]);
      assert xs[k] == init[k];
    } else {
      assert xs[|xs| - 1] == Some(Present(xs)[i]);
    }
  }

  /** Output is produced record by record, so it splits along any split of the records. */
  lemma PrintedLinesAppend(a: seq<Certificate>, b: seq<Certificate>)
    ensures PrintedLines(a + b) == PrintedLines(a) + PrintedLines(b)
    ensures Warnings(a + b) == Warnings(a) + Warnings(b)
  {
    assert Renderings(a + b) == Renderings(a) + Renderings(b);
    assert Complaints(a + b) == Complaints(a) + Complaints(b);
    PresentAppend(Renderings(a), Renderings(b));
    PresentAppend(Complaints(a), Complaints(b));
  }

  /** Every record is accounted for: it is either printed or warned about. */
  lemma EveryRecordAccounted(cs: seq<Certificate>)
    ensures |PrintedLines(cs)| + |Warnings(cs)| == |cs|
  {
    PresentComplement(Renderings(cs), Complaints(cs));
  }

  /** Every printed line is the rendering of some record whose port normalised. */
  lemma PrintedLinesSound(cs: seq<Certificate>, i: nat)
    requires i < |PrintedLines(cs)|
    ensures exists c :: c in cs && Rendered(c) == Some(PrintedLines(cs)[i])
  {
    PresentSound(Renderings(cs), i);
    var k :| 0 <= k < |cs| && Renderings(cs)[k] == Some(PrintedLines(cs)[i]);
    assert cs[k] in cs;
  }

  /** When every port normalises, line `i` is exactly the rendering of record `i`, and nothing is warned about. */
  lemma PrintedLinesAllParse(cs: seq<Certificate>)
    requires forall k :: 0 <= k < |cs| ==> Rendered(cs[k]).Some?
    ensures |PrintedLines(cs)| == |cs| && Warnings(cs) == []
    ensures forall k :: 0 <= k < |cs| ==> PrintedLines(cs)[k] == Rendered(cs[k]).value
  {
    PresentAllSome(Renderings(cs));
    EveryRecordAccounted(cs);
  }

  /** A record whose port does not normalise prints nothing and gives one warning. */
  lemma SkippedRecord(c: Certificate)
    requires ParsePort(c.port).Err?
    ensures PrintedLines([c]) == [] && Warnings([c]) == [Warning(c.ip, ParsePort(c.port).error)]
  {
    assert Renderings([c]) == [None];
    assert Complaints([c]) == [Some(Warning(c.ip, ParsePort(c.port).error))];
    PresentSingleton(Renderings([c])[0]);
    PresentSingleton(Complaints([c])[0]);
  }

  /** A record with a quoted port, e.g. `"443"`, prints as `ip:443`. */
  lemma QuotedPortLine(ip: string, n: int, cn: string, org: string, ts: string)
    ensures PrintedLines([Certificate(ip, Some(JString(FormatInt(n))), cn, org, ts)]) == [ip + ":" + FormatInt(n)]
  {
    ParsePortQuoted(n);
    var c := Certificate(ip, Some(JString(FormatInt(n))), cn, org, ts);
    assert Renderings([c]) == [Some(ip + ":" + FormatInt(n))];
    PresentSingleton(Renderings([c])[0]);
  }

  /** A record whose port does not normalise is skipped with a warning; the rest still print. */
  lemma UnparseablePortSkipped(before: seq<Certificate>, c: Certificate, after: seq<Certificate>)
    requires ParsePort(c.port).Err?
    ensures PrintedLines(before + [c] + after) == PrintedLines(before) + PrintedLines(after)
    ensures Warnings(before + [c] + after) == Warnings(before) + [Warning(c.ip, ParsePort(c.port).error)] + Warnings(after)
  {
    SkippedRecord(c);
    var front := before + [c];
    PrintedLinesAppend(before, [c]);
    PrintedLinesAppend(front, after);
  }

  /** For example, a record whose port is `true` is skipped with an "unable to parse port" warning. */
  lemma BooleanPortSkipped(before: seq<Certificate>, c: Certificate, after: seq<Certificate>)
    requires c.port == Some(JBool(true))
    ensures PrintedLines(before + [c] + after) == PrintedLines(before) + PrintedLines(after)
    ensures Warnings(before + [c] + after) == Warnings(before) + [Warning(c.ip, Unparseable(c.port))] + Warnings(after)
  {
    UnparseablePortSkipped(before, c, after);
  }
}
