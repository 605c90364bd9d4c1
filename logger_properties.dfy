/** What the logger promises, proved about the functions of `Logging`. */
module LoggerProperties {
  import opened Wrappers
  import opened JsStrings
  import opened JsObjects
  import opened Logging

  // ---- Level resolution ----

  /** Each name of the `levels` table resolves to its number. */
  lemma NamedLevelResolves(s: Severity)
    ensures ResolveLevel(Named(s.Name())) == Success(s.Rank())
  {
  }

  /** Any other name is refused, with a message that lists the valid names. */
  lemma UnknownLevelRefused(name: string)
    requires name !in LevelNames
    ensures ResolveLevel(Named(name)) ==
      Failure("invalid level: \"" + name + "\" given. Only " + "ERROR,NOTICE,INFO,DEBUG" + " is valid")
  {
    LevelNamesListed();
    assert LevelOf(name).None?;
  }

  /** `Object.keys(levels).toString()`. */
  lemma LevelNamesListed()
    ensures Join(LevelNames, ",") == "ERROR,NOTICE,INFO,DEBUG"
  {
    assert Join(LevelNames[3..], ",") == "DEBUG";
    assert Join(LevelNames[2..], ",") == "INFO" + "," + "DEBUG";
    assert Join(LevelNames[1..], ",") == "NOTICE" + "," + "INFO,DEBUG";
    assert Join(LevelNames, ",") == "ERROR" + "," + "NOTICE,INFO,DEBUG";
  }

  /** A number is stored as given: 2 behaves as NOTICE, 0 as no level at all. */
  lemma NumericLevels()
    ensures ResolveLevel(Numeric(2)) == ResolveLevel(Named("NOTICE"))
    ensures forall s: Severity :: ShouldLog(s.Rank(), 2) <==> s == ERROR || s == NOTICE
    ensures forall s: Severity :: !ShouldLog(s.Rank(), 0)
  {
  }

  // ---- Threshold filtering ----

  /** A named level emits exactly the severities no more verbose than itself. */
  lemma NamedLevelFilter(configured: Severity, called: Severity)
    ensures ResolveLevel(Named(configured.Name())).Success?
    ensures ShouldLog(called.Rank(), ResolveLevel(Named(configured.Name())).value)
        <==> called.Rank() <= configured.Rank()
  {
    NamedLevelResolves(configured);
  }

  /** Filtering is monotone in the configured level. */
  lemma FilterMonotoneInLevel(s: Severity, level: int, level': int)
    requires ShouldLog(s.Rank(), level) && level <= level'
    ensures ShouldLog(s.Rank(), level')
  {
  }

  /** A logger that emits a severity emits every less verbose one. */
  lemma FilterDownwardClosed(s: Severity, t: Severity, level: int)
    requires ShouldLog(s.Rank(), level) && t.Rank() <= s.Rank()
    ensures ShouldLog(t.Rank(), level)
  {
  }

  // ---- Trace value ----

  /** The trace value is the header with every `/` replaced by `,`. */
  lemma TraceValueReplacesSlashes(header: Option<string>)
    ensures TraceValue(header) == TracePrefix + Replace(header.GetOr(""), '/', ',')
  {
    JoinSplitReplaces(header.GetOr(""), '/', ',');
  }

  /** Without the header the trace value is the bare prefix. */
  lemma TraceValueWithoutHeader()
    ensures TraceValue(None) == "projects/hallonpaj/traces/"
  {
  }

  // ---- Record composition ----

  lemma HeadFacts(s: Severity, err: Option<ErrorInfo>)
    ensures Keys(Head(s, err)) == HeadKeys(s)
    ensures UniqueKeys(Head(s, err))
    ensures TraceKey !in HeadKeys(s)
    ensures Lookup(Head(s, err), "severity") == Some(Defined(Str(s.Name())))
    ensures s == ERROR ==>
      Lookup(Head(s, err), "stack") ==
        Some(if err.Some? && err.value.stack.Some? then Defined(Str(err.value.stack.value)) else Undefined)
    ensures s == ERROR ==>
      Lookup(Head(s, err), "error_message") ==
        Some(if err.Some? then Defined(Str(err.value.message)) else Undefined)
  {
    var h := Head(s, err);
    if s == ERROR {
      assert h[2..][1..] == [];
      assert Lookup(h[2..], "error_message") == Some(h[2].1);
      assert Lookup(h[1..], "error_message") == Lookup(h[2..], "error_message");
      assert Lookup(h[1..], "stack") == Some(h[1].1);
      assert Keys(h[2..]) == ["error_message"];
      assert Keys(h[1..]) == ["stack", "error_message"];
      var ks := HeadKeys(s);
      assert ks[1..][1..] == ["error_message"];
      assert Distinct(ks[1..][1..]);
      assert Distinct(ks[1..]);
    } else {
      assert h[1..] == [];
    }
  }

  /** The record has no property twice. */
  lemma RecordKeysUnique(s: Severity, err: Option<ErrorInfo>, entry: Record, hasRequest: bool, header: Option<string>)
    ensures UniqueKeys(LogRecord(s, err, entry, hasRequest, header))
  {
    HeadFacts(s, err);
    SpreadUnique(Head(s, err), entry);
    if hasRequest {
      PutUnique(Spread(Head(s, err), entry), TraceKey, Defined(Str(TraceValue(header))));
    }
  }

  /** Key order: `severity`, then for `error` `stack` and `error_message`,
      then the entry's other names in the entry's order, then the trace key
      when there is a request and the entry did not already place it. */
  lemma RecordKeyOrder(s: Severity, err: Option<ErrorInfo>, entry: Record, hasRequest: bool, header: Option<string>)
    requires UniqueKeys(entry)
    ensures Keys(LogRecord(s, err, entry, hasRequest, header)) ==
      HeadKeys(s) + KeysNotIn(Keys(entry), HeadKeys(s))
      + (if hasRequest && TraceKey !in Keys(entry) then [TraceKey] else [])
  {
    HeadFacts(s, err);
    SpreadKeys(Head(s, err), entry);
    KeysNotInMember(Keys(entry), HeadKeys(s), TraceKey);
  }

  lemma {:induction false} KeysNotInMember(ks: seq<string>, existing: seq<string>, k: string)
    requires k !in existing
    ensures k in KeysNotIn(ks, existing) <==> k in ks
    decreases |ks|
  {
    if |ks| > 0 {
      KeysNotInMember(ks[1..], existing, k);
      assert ks == [ks[0]] + ks[1..];
    }
  }

  /** `severity` is always the first property. */
  lemma SeverityFirst(s: Severity, err: Option<ErrorInfo>, entry: Record, hasRequest: bool, header: Option<string>)
    requires UniqueKeys(entry)
    ensures |LogRecord(s, err, entry, hasRequest, header)| > 0
    ensures Keys(LogRecord(s, err, entry, hasRequest, header))[0] == "severity"
  {
    RecordKeyOrder(s, err, entry, hasRequest, header);
  }

  /** Values: the trace wins when there is a request, then the entry, then
      the literal part. */
  lemma RecordValues(s: Severity, err: Option<ErrorInfo>, entry: Record, hasRequest: bool, header: Option<string>, k: string)
    requires UniqueKeys(entry)
    ensures Lookup(LogRecord(s, err, entry, hasRequest, header), k) ==
      if hasRequest && k == TraceKey then Some(Defined(Str(TraceValue(header))))
      else if k in Keys(entry) then Lookup(entry, k)
      else Lookup(Head(s, err), k)
  {
    SpreadLookup(Head(s, err), entry, k);
  }

  /** `error` without an error object: `stack` and `error_message` are
      undefined and do not reach the line, unless the entry sets them. */
  lemma ErrorWithoutErrorObject(entry: Record, hasRequest: bool, header: Option<string>)
    requires UniqueKeys(entry)
    requires "stack" !in Keys(entry) && "error_message" !in Keys(entry)
    ensures "stack" !in LineKeys(Stringify(LogRecord(ERROR, None, entry, hasRequest, header)))
    ensures "error_message" !in LineKeys(Stringify(LogRecord(ERROR, None, entry, hasRequest, header)))
  {
    var r := LogRecord(ERROR, None, entry, hasRequest, header);
    RecordKeysUnique(ERROR, None, entry, hasRequest, header);
    RecordValues(ERROR, None, entry, hasRequest, header, "stack");
    RecordValues(ERROR, None, entry, hasRequest, header, "error_message");
    var head := Head(ERROR, None);
    assert Lookup(head[1..], "error_message") == Lookup(head[2..], "error_message");
    AbsentFromLine(r, "stack");
    AbsentFromLine(r, "error_message");
  }

  /** An undefined property does not reach the line. */
  lemma AbsentFromLine(r: Record, k: string)
    requires UniqueKeys(r)
    requires Lookup(r, k) == Some(Undefined)
    ensures k !in LineKeys(Stringify(r))
  {
    var line := Stringify(r);
    if k in LineKeys(line) {
      var i :| 0 <= i < |line| && line[i].0 == k;
      assert (k, line[i].1) in line;
      StringifyMember(r, k, line[i].1);
      LookupUnique(r, k, Defined(line[i].1));
      assert false;
    }
  }

  /** With a request, and no trace property in the entry, the trace is the
      last property of the line and the rest is untouched. */
  lemma TraceIsLast(s: Severity, err: Option<ErrorInfo>, entry: Record, header: Option<string>)
    requires UniqueKeys(entry) && TraceKey !in Keys(entry)
    ensures Stringify(LogRecord(s, err, entry, true, header)) ==
      Stringify(LogRecord(s, err, entry, false, header)) + [(TraceKey, Str(TraceValue(header)))]
  {
    var spread := Spread(Head(s, err), entry);
    assert TraceKey !in Keys(spread) by {
      HeadFacts(s, err);
      SpreadKeys(Head(s, err), entry);
      KeysNotInMember(Keys(entry), HeadKeys(s), TraceKey);
    }
    var field := (TraceKey, Defined(Str(TraceValue(header))));
    assert LogRecord(s, err, entry, true, header) == spread + [field];
    assert Stringify([field]) == [(TraceKey, Str(TraceValue(header)))] by {
      assert [field][1..] == [];
    }
    StringifyAppend(spread, [field]);
  }

  /** Without a request the line holds no trace property the entry did not put there. */
  lemma NoRequestNoTrace(s: Severity, err: Option<ErrorInfo>, entry: Record, header: Option<string>)
    requires UniqueKeys(entry) && TraceKey !in Keys(entry)
    ensures TraceKey !in LineKeys(Stringify(LogRecord(s, err, entry, false, header)))
  {
    var r := LogRecord(s, err, entry, false, header);
    RecordKeyOrder(s, err, entry, false, header);
    KeysNotInMember(Keys(entry), HeadKeys(s), TraceKey);
    LineKeysWithin(r);
  }

  /** Every name on the line is a property of the record. */
  lemma LineKeysWithin(r: Record)
    ensures forall k :: k in LineKeys(Stringify(r)) ==> k in Keys(r)
  {
    var line := Stringify(r);
    forall k | k in LineKeys(line)
      ensures k in Keys(r)
    {
      var i :| 0 <= i < |line| && line[i].0 == k;
      assert (k, line[i].1) in line;
      StringifyMember(r, k, line[i].1);
      KeysContain(r, (k, Defined(line[i].1)));
    }
  }
}
