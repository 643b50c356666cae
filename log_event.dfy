/**
 * The log_event audit record: the month-key rule of its canonical
 * constructor, the isInteger check that gates it, the conversion of a
 * record-count map into detail rows, and the entity itself with its
 * constructor overloads and setters.
 *
 * Java references that may be null are Option values. The ambient clock
 * (Calendar.getInstance()) is replaced by the parameters `year` and `mth`
 * (the calendar month, 1 to 12).
 */
module LogEvents {
  import opened Wrappers
  import opened JavaLang

  // ---------------------------------------------------------------------
  // isInteger
  // ---------------------------------------------------------------------

  /** isInteger: Integer.parseInt accepts the string; a failed parse is false, never an error. */
  predicate IsInteger(s: string)
    ensures IsInteger(s) ==> |s| > 0 && !IsTrimmed(s[0]) && !IsTrimmed(s[|s| - 1])
    ensures IsInteger(s) ==> IsDigit(s[|s| - 1]) && (IsDigit(s[0]) || s[0] == '-' || s[0] == '+')
  {
    ParseInt(s).Some?
  }

  /**
   * isInteger holds exactly of an optional '+' or '-' followed by at least
   * one digit, whose signed value lies in [-2^31, 2^31 - 1].
   */
  lemma IsIntegerSyntax(s: string)
    ensures IsInteger(s) <==>
      && |s| > 0
      && var start := if s[0] == '-' || s[0] == '+' then 1 else 0;
      && start < |s| && AllDigits(s[start..])
      && (if s[0] == '-' then DigitsValue(s[start..]) <= 0x8000_0000 else DigitsValue(s[start..]) <= 0x7fff_ffff)
  {
    if |s| > 0 {
      var start := if s[0] == '-' || s[0] == '+' then 1 else 0;
      assert Unsigned(s) == s[start..];
    }
  }

  /** A string that isInteger accepts has nothing for String.trim to remove. */
  lemma IsIntegerIsTrimmed(s: string)
    requires IsInteger(s)
    ensures |s| > 0 && Trim(s) == s
  {
    assert !IsTrimmed(s[0]) && !IsTrimmed(s[|s| - 1]);
  }

  /** A digit string is accepted bare, after '+' and after '-' when its value fits an int. */
  lemma IsIntegerAcceptsSigned(digits: string)
    requires |digits| > 0 && AllDigits(digits) && DigitsValue(digits) <= MAX_INT
    ensures IsInteger(digits) && IsInteger("+" + digits) && IsInteger("-" + digits)
  {
    ParseDigits(digits);
    ParsePlus(digits);
    ParseNegated(digits);
  }

  /** A digit string whose value exceeds the int range is rejected, with or without a sign. */
  lemma IsIntegerRejectsOverflow(digits: string)
    requires |digits| > 0 && AllDigits(digits) && DigitsValue(digits) > -MIN_INT
    ensures !IsInteger(digits) && !IsInteger("+" + digits) && !IsInteger("-" + digits)
  {
    ParseDigits(digits);
    ParsePlus(digits);
    ParseNegated(digits);
  }

  /** Any blank or control character, anywhere in the string, makes isInteger false. */
  lemma IsIntegerRejectsBlank(s: string, i: int)
    requires 0 <= i < |s| && IsTrimmed(s[i])
    ensures !IsInteger(s)
  {
    var digits := Unsigned(s);
    if i >= |s| - |digits| {
      assert s[i] == digits[i - (|s| - |digits|)];
    }
  }

  // ---------------------------------------------------------------------
  // Month key
  // ---------------------------------------------------------------------

  /** The month key stamped from the clock: the year, then the month as two digits. */
  function StampedMonth(year: Int32, mth: int): (r: string)
    requires 1 <= mth <= 12
    ensures |r| >= 3 && IsDigit(r[|r| - 2]) && IsDigit(r[|r| - 1]) && r[|r| - 2] <= '1'
    ensures r[0] == '-' <==> year < 0
    ensures year >= 0 ==> AllDigits(r)
  {
    TwoDigitMonth(mth);
    IntToString(year) + (if mth > 9 then IntToString(mth) else "0" + IntToString(mth))
  }

  /** The two-digit month part of a stamp. */
  lemma {:induction false} StampedMonthParts(year: Int32, mth: int)
    requires 1 <= mth <= 12
    ensures var r := StampedMonth(year, mth);
      && |r| >= 3
      && AllDigits(r[|r| - 2..]) && DigitsValue(r[|r| - 2..]) == mth
      && ParseInt(r[..|r| - 2]) == Some(year)
  {
    var r := StampedMonth(year, mth);
    var mm := if mth > 9 then IntToString(mth) else "0" + IntToString(mth);
    TwoDigitMonth(mth);
    assert r[|r| - 2..] == mm && r[..|r| - 2] == IntToString(year);
    ParseIntOfIntToString(year);
  }

  lemma TwoDigitMonth(mth: int)
    requires 1 <= mth <= 12
    ensures var mm := if mth > 9 then IntToString(mth) else "0" + IntToString(mth);
      |mm| == 2 && AllDigits(mm) && DigitsValue(mm) == mth
  {
    if mth > 9 {
      assert NatToDigits(mth) == NatToDigits(1) + [DigitChar(mth % 10)];
      DigitsValueAppend(NatToDigits(1), [DigitChar(mth % 10)]);
    } else {
      DigitsValueAppend("0", NatToDigits(mth));
    }
  }

  /** With a four-digit year the stamp is six digits and parses to year * 100 + month. */
  lemma FourDigitYearStamp(year: Int32, mth: int)
    requires 1000 <= year <= 9999 && 1 <= mth <= 12
    ensures var r := StampedMonth(year, mth);
      |r| == 6 && AllDigits(r) && ParseInt(r) == Some(year * 100 + mth)
  {
    var r := StampedMonth(year, mth);
    FourDigitStampValue(year, mth);
    ParseDigits(r);
  }

  lemma FourDigitStampValue(year: Int32, mth: int)
    requires 1000 <= year <= 9999 && 1 <= mth <= 12
    ensures var r := StampedMonth(year, mth);
      |r| == 6 && AllDigits(r) && DigitsValue(r) == year * 100 + mth
  {
    var y := NatToDigits(year);
    FourDigitRendering(year);
    var mm := if mth > 9 then IntToString(mth) else "0" + IntToString(mth);
    TwoDigitMonth(mth);
    DigitsValueAppend(y, mm);
    assert Pow10(2) == 100;
  }

  lemma FourDigitRendering(year: nat)
    requires 1000 <= year <= 9999
    ensures |NatToDigits(year)| == 4
  {
    assert |NatToDigits(year / 1000)| == 1;
    assert |NatToDigits(year / 100)| == 2;
    assert |NatToDigits(year / 10)| == 3;
  }

  /**
   * The month the canonical constructor stores: the caller's month, trimmed,
   * when the trimmed form is longer than three characters and the untrimmed
   * string is an int; the clock's stamp otherwise.
   */
  function NormalizeMonth(month: Option<string>, year: Int32, mth: int): (r: string)
    requires 1 <= mth <= 12
    ensures r == StampedMonth(year, mth) || (month == Some(r) && |r| > 3 && IsInteger(r))
  {
    if month.Some? && |Trim(month.value)| > 3 && IsInteger(month.value) then
      IsIntegerIsTrimmed(month.value);
      Trim(month.value)
    else StampedMonth(year, mth)
  }

  /** The month rule without the trims: an accepted month is kept character for character. */
  lemma NormalizeMonthKeepsOrStamps(month: Option<string>, year: Int32, mth: int)
    requires 1 <= mth <= 12
    ensures NormalizeMonth(month, year, mth) ==
      if month.Some? && |month.value| > 3 && IsInteger(month.value) then month.value
      else StampedMonth(year, mth)
  {
    if month.Some? && IsInteger(month.value) {
      IsIntegerIsTrimmed(month.value);
    }
  }

  /** A month padded with blanks is not trimmed and kept: isInteger rejects the blanks. */
  lemma PaddedMonthIsStamped(digits: string, year: Int32, mth: int)
    requires 1 <= mth <= 12
    ensures NormalizeMonth(Some("  " + digits + "  "), year, mth) == StampedMonth(year, mth)
  {
    IsIntegerRejectsBlank("  " + digits + "  ", 0);
  }

  /** A signed month of at least three digits is kept with its sign. */
  lemma SignedMonthIsKept(digits: string, year: Int32, mth: int)
    requires |digits| >= 3 && AllDigits(digits) && DigitsValue(digits) <= MAX_INT && 1 <= mth <= 12
    ensures NormalizeMonth(Some("-" + digits), year, mth) == "-" + digits
    ensures NormalizeMonth(Some("+" + digits), year, mth) == "+" + digits
  {
    IsIntegerAcceptsSigned(digits);
    NormalizeMonthKeepsOrStamps(Some("-" + digits), year, mth);
    NormalizeMonthKeepsOrStamps(Some("+" + digits), year, mth);
  }

  /**
   * With a four-digit year, a stored month passes the rule again: feeding it
   * back, at any clock, stores it unchanged.
   */
  lemma NormalizeMonthIdempotent(month: Option<string>, year: Int32, mth: int, year': Int32, mth': int)
    requires 1000 <= year <= 9999 && 1 <= mth <= 12 && 1 <= mth' <= 12
    ensures var r := NormalizeMonth(month, year, mth);
      NormalizeMonth(Some(r), year', mth') == r
  {
    var r := NormalizeMonth(month, year, mth);
    NormalizeMonthKeepsOrStamps(month, year, mth);
    if r == StampedMonth(year, mth) {
      FourDigitYearStamp(year, mth);
    }
    NormalizeMonthKeepsOrStamps(Some(r), year', mth');
  }

  /** The month branch of the canonical constructor, run against the clock's year and month. */
  method ResolveMonth(month: Option<string>, year: Int32, mth: int) returns (key: string)
    requires 1 <= mth <= 12
    ensures key == if month.Some? && |month.value| > 3 && IsInteger(month.value) then month.value
      else StampedMonth(year, mth)
    ensures key == NormalizeMonth(month, year, mth)
  {
    if month.Some? && |Trim(month.value)| > 3 && IsInteger(month.value) {
      key := Trim(month.value);
    } else {
      key := StampedMonth(year, mth);
    }
    NormalizeMonthKeepsOrStamps(month, year, mth);
  }

  // ---------------------------------------------------------------------
  // Record counts to log details
  // ---------------------------------------------------------------------

  /** A detail row: the event type id as text, a category key and its count. */
  datatype LogDetail = LogDetail(typeId: string, key: string, count: Int32)

  /** The detail rows a count map stands for: one per key. */
  function DetailsOf(logEventTypeId: Int32, counts: map<string, Int32>): (r: set<LogDetail>)
    ensures forall d :: d in r <==>
      d.typeId == IntToString(logEventTypeId) && d.key in counts && counts[d.key] == d.count
  {
    set key | key in counts :: LogDetail(IntToString(logEventTypeId), key, counts[key])
  }

  /** Distinct keys give distinct rows, so there are as many rows as keys. */
  lemma {:induction false} DetailsOfSize(logEventTypeId: Int32, counts: map<string, Int32>)
    ensures |DetailsOf(logEventTypeId, counts)| == |counts|
    decreases |counts|
  {
    if counts != map[] {
      var key :| key in counts;
      var rest := counts - {key};
      assert rest.Keys == counts.Keys - {key};
      assert |rest| == |counts| - 1;
      var row := LogDetail(IntToString(logEventTypeId), key, counts[key]);
      assert DetailsOf(logEventTypeId, counts) == DetailsOf(logEventTypeId, rest) + {row};
      assert row !in DetailsOf(logEventTypeId, rest);
      DetailsOfSize(logEventTypeId, rest);
    } else {
      assert DetailsOf(logEventTypeId, counts) == {};
    }
  }

  /** The type id written into every row parses back to the event type id. */
  lemma DetailTypeIdsParse(logEventTypeId: Int32, counts: map<string, Int32>)
    ensures forall d :: d in DetailsOf(logEventTypeId, counts) ==> ParseInt(d.typeId) == Some(logEventTypeId)
  {
    ParseIntOfIntToString(logEventTypeId);
  }

  /**
   * recordCountsToLogDetails: a fresh set, filled with one row per key of the
   * map; a null map gives the empty set. The map itself is a value and is
   * not changed.
   */
  method RecordCountsToLogDetails(logEventTypeId: Int32, recordCounts: Option<map<string, Int32>>)
    returns (logDetails: set<LogDetail>)
    ensures recordCounts.None? ==> logDetails == {}
    ensures recordCounts.Some? ==> logDetails == DetailsOf(logEventTypeId, recordCounts.value)
    ensures recordCounts.Some? ==> |logDetails| == |recordCounts.value|
  {
    logDetails := {};
    if recordCounts.Some? {
      var counts := recordCounts.value;
      var typeId := IntToString(logEventTypeId);
      var keys := counts.Keys;
      ghost var visited: set<string> := {};
      while keys != {}
        invariant keys !! visited && keys + visited == counts.Keys
        invariant logDetails == set key | key in visited :: LogDetail(typeId, key, counts[key])
        decreases keys
      {
        var key :| key in keys;
        var val := counts[key];
        logDetails := logDetails + {LogDetail(typeId, key, val)};
        keys := keys - {key};
        visited := visited + {key};
      }
      DetailsOfSize(logEventTypeId, counts);
    }
  }

  // ---------------------------------------------------------------------
  // The entity
  // ---------------------------------------------------------------------

  /** The values of all fields of a LogEvent, for stating what a call changes. */
  datatype EventFields = EventFields(
    id: Int32,
    sourceUrl: Option<string>,
    comment: Option<string>,
    month: Option<string>,
    userEmail: Option<string>,
    userIp: Option<string>,
    source: Option<string>,
    logEventTypeId: Int32,
    logReasonTypeId: Option<Int32>,
    logSourceTypeId: Option<Int32>,
    logDetails: Option<set<LogDetail>>)

  /**
   * One audit record. The fields are public in Dafny, so each getX() of the
   * entity is the field read `x`; each setX() is a method below.
   */
  class LogEvent {
    var id: Int32
    var sourceUrl: Option<string>
    var comment: Option<string>
    var month: Option<string>
    var userEmail: Option<string>
    var userIp: Option<string>
    var source: Option<string>
    var logEventTypeId: Int32
    var logReasonTypeId: Option<Int32>
    var logSourceTypeId: Option<Int32>
    var logDetails: Option<set<LogDetail>>

    function Fields(): EventFields
      reads this
    {
      EventFields(id, sourceUrl, comment, month, userEmail, userIp, source,
                  logEventTypeId, logReasonTypeId, logSourceTypeId, logDetails)
    }

    /** The no-argument constructor: every reference null, every int zero. */
    constructor Empty()
      ensures Fields() == EventFields(0, None, None, None, None, None, None, 0, None, None, None)
    {
      id, logEventTypeId := 0, 0;
      sourceUrl, comment, month, userEmail, userIp, source := None, None, None, None, None, None;
      logReasonTypeId, logSourceTypeId, logDetails := None, None, None;
    }

    /**
     * The body of the canonical constructor, which every other constructor
     * reaches: copy the arguments and store the month key the constructor
     * resolved (see ResolveMonth).
     */
    method Init(source: Option<string>, logEventTypeId: Int32,
                logReasonTypeId: Option<Int32>, logSourceTypeId: Option<Int32>,
                userEmail: Option<string>, userIp: Option<string>, comment: Option<string>,
                monthKey: string, logDetails: Option<set<LogDetail>>, sourceUrl: Option<string>)
      modifies this
      ensures Fields() == EventFields(old(id), sourceUrl, comment, Some(monthKey),
                                      userEmail, userIp, source, logEventTypeId,
                                      logReasonTypeId, logSourceTypeId, logDetails)
    {
      this.source := source;
      this.userEmail := userEmail;
      this.userIp := userIp;
      this.comment := comment;
      this.logDetails := logDetails;
      this.logEventTypeId := logEventTypeId;
      this.logReasonTypeId := logReasonTypeId;
      this.logSourceTypeId := logSourceTypeId;
      this.sourceUrl := sourceUrl;
      this.month := Some(monthKey);
    }

    /** The canonical constructor, with the clock read as `year` and `mth`. */
    constructor (source: Option<string>, logEventTypeId: Int32,
                 logReasonTypeId: Option<Int32>, logSourceTypeId: Option<Int32>,
                 userEmail: Option<string>, userIp: Option<string>, comment: Option<string>,
                 month: Option<string>, logDetails: Option<set<LogDetail>>, sourceUrl: Option<string>,
                 year: Int32, mth: int)
      requires 1 <= mth <= 12
      ensures Fields() == EventFields(0, sourceUrl, comment, Some(NormalizeMonth(month, year, mth)),
                                      userEmail, userIp, source, logEventTypeId,
                                      logReasonTypeId, logSourceTypeId, logDetails)
    {
      var monthKey := ResolveMonth(month, year, mth);
      id := 0;
      new;
      Init(source, logEventTypeId, logReasonTypeId, logSourceTypeId, userEmail, userIp, comment, monthKey, logDetails, sourceUrl);
    }

    /** Details given, no type ids, month or URL: the month is stamped from the clock. */
    constructor WithDetails(source: Option<string>, logEventTypeId: Int32,
                            userEmail: Option<string>, userIp: Option<string>, comment: Option<string>,
                            logDetails: Option<set<LogDetail>>, year: Int32, mth: int)
      requires 1 <= mth <= 12
      ensures Fields() == EventFields(0, None, comment, Some(StampedMonth(year, mth)),
                                      userEmail, userIp, source, logEventTypeId, None, None, logDetails)
    {
      var monthKey := ResolveMonth(None, year, mth);
      id := 0;
      new;
      Init(source, logEventTypeId, None, None, userEmail, userIp, comment, monthKey, logDetails, None);
    }

    /** Details, type ids and URL given, no month: the month is stamped from the clock. */
    constructor WithDetailsAndUrl(source: Option<string>, logEventTypeId: Int32,
                                  logReasonTypeId: Option<Int32>, logSourceTypeId: Option<Int32>,
                                  userEmail: Option<string>, userIp: Option<string>, comment: Option<string>,
                                  logDetails: Option<set<LogDetail>>, sourceUrl: Option<string>,
                                  year: Int32, mth: int)
      requires 1 <= mth <= 12
      ensures Fields() == EventFields(0, sourceUrl, comment, Some(StampedMonth(year, mth)),
                                      userEmail, userIp, source, logEventTypeId,
                                      logReasonTypeId, logSourceTypeId, logDetails)
    {
      var monthKey := ResolveMonth(None, year, mth);
      id := 0;
      new;
      Init(source, logEventTypeId, logReasonTypeId, logSourceTypeId, userEmail, userIp, comment, monthKey, logDetails, sourceUrl);
    }

    /** Record counts instead of details, no type ids, month or URL. */
    constructor WithCounts(source: Option<string>, logEventTypeId: Int32,
                           userEmail: Option<string>, userIp: Option<string>, comment: Option<string>,
                           recordCounts: Option<map<string, Int32>>, year: Int32, mth: int)
      requires 1 <= mth <= 12
      ensures Fields() == EventFields(0, None, comment, Some(StampedMonth(year, mth)),
                                      userEmail, userIp, source, logEventTypeId, None, None,
                                      Some(if recordCounts.Some? then DetailsOf(logEventTypeId, recordCounts.value) else {}))
    {
      var details := RecordCountsToLogDetails(logEventTypeId, recordCounts);
      var monthKey := ResolveMonth(None, year, mth);
      id := 0;
      new;
      Init(source, logEventTypeId, None, None, userEmail, userIp, comment, monthKey, Some(details), None);
    }

    /** Record counts, type ids and URL, no month. */
    constructor WithCountsAndUrl(source: Option<string>, logEventTypeId: Int32,
                                 logReasonTypeId: Option<Int32>, logSourceTypeId: Option<Int32>,
                                 userEmail: Option<string>, userIp: Option<string>, comment: Option<string>,
                                 recordCounts: Option<map<string, Int32>>, sourceUrl: Option<string>,
                                 year: Int32, mth: int)
      requires 1 <= mth <= 12
      ensures Fields() == EventFields(0, sourceUrl, comment, Some(StampedMonth(year, mth)),
                                      userEmail, userIp, source, logEventTypeId,
                                      logReasonTypeId, logSourceTypeId,
                                      Some(if recordCounts.Some? then DetailsOf(logEventTypeId, recordCounts.value) else {}))
    {
      var details := RecordCountsToLogDetails(logEventTypeId, recordCounts);
      var monthKey := ResolveMonth(None, year, mth);
      id := 0;
      new;
      Init(source, logEventTypeId, logReasonTypeId, logSourceTypeId, userEmail, userIp, comment, monthKey, Some(details), sourceUrl);
    }

    /** Record counts and a month, no type ids or URL. */
    constructor WithMonthAndCounts(source: Option<string>, logEventTypeId: Int32,
                                   userEmail: Option<string>, userIp: Option<string>, comment: Option<string>,
                                   month: Option<string>, recordCounts: Option<map<string, Int32>>,
                                   year: Int32, mth: int)
      requires 1 <= mth <= 12
      ensures Fields() == EventFields(0, None, comment, Some(NormalizeMonth(month, year, mth)),
                                      userEmail, userIp, source, logEventTypeId, None, None,
                                      Some(if recordCounts.Some? then DetailsOf(logEventTypeId, recordCounts.value) else {}))
    {
      var details := RecordCountsToLogDetails(logEventTypeId, recordCounts);
      var monthKey := ResolveMonth(month, year, mth);
      id := 0;
      new;
      Init(source, logEventTypeId, None, None, userEmail, userIp, comment, monthKey, Some(details), None);
    }

    /** Record counts, type ids, a month and a URL. */
    constructor WithMonthCountsAndUrl(source: Option<string>, logEventTypeId: Int32,
                                      logReasonTypeId: Option<Int32>, logSourceTypeId: Option<Int32>,
                                      userEmail: Option<string>, userIp: Option<string>, comment: Option<string>,
                                      month: Option<string>, recordCounts: Option<map<string, Int32>>,
                                      sourceUrl: Option<string>, year: Int32, mth: int)
      requires 1 <= mth <= 12
      ensures Fields() == EventFields(0, sourceUrl, comment, Some(NormalizeMonth(month, year, mth)),
                                      userEmail, userIp, source, logEventTypeId,
                                      logReasonTypeId, logSourceTypeId,
                                      Some(if recordCounts.Some? then DetailsOf(logEventTypeId, recordCounts.value) else {}))
    {
      var details := RecordCountsToLogDetails(logEventTypeId, recordCounts);
      var monthKey := ResolveMonth(month, year, mth);
      id := 0;
      new;
      Init(source, logEventTypeId, logReasonTypeId, logSourceTypeId, userEmail, userIp, comment, monthKey, Some(details), sourceUrl);
    }

    /** setId: reserved for the storage layer, which assigns the generated key. */
    method SetId(id: Int32)
      modifies this
      ensures Fields() == old(Fields()).(id := id)
    {
      this.id := id;
    }

    method SetComment(comment: Option<string>)
      modifies this
      ensures Fields() == old(Fields()).(comment := comment)
    {
      this.comment := comment;
    }

    /** setMonth stores the value as given: the month rule applies only in the constructor. */
    method SetMonth(month: Option<string>)
      modifies this
      ensures Fields() == old(Fields()).(month := month)
    {
      this.month := month;
    }

    method SetUserEmail(userEmail: Option<string>)
      modifies this
      ensures Fields() == old(Fields()).(userEmail := userEmail)
    {
      this.userEmail := userEmail;
    }

    method SetUserIp(userIp: Option<string>)
      modifies this
      ensures Fields() == old(Fields()).(userIp := userIp)
    {
      this.userIp := userIp;
    }

    method SetLogDetails(logDetails: Option<set<LogDetail>>)
      modifies this
      ensures Fields() == old(Fields()).(logDetails := logDetails)
    {
      this.logDetails := logDetails;
    }

    method SetLogEventTypeId(logEventTypeId: Int32)
      modifies this
      ensures Fields() == old(Fields()).(logEventTypeId := logEventTypeId)
    {
      this.logEventTypeId := logEventTypeId;
    }

    method SetSource(source: Option<string>)
      modifies this
      ensures Fields() == old(Fields()).(source := source)
    {
      this.source := source;
    }

    method SetLogReasonTypeId(logReasonTypeId: Option<Int32>)
      modifies this
      ensures Fields() == old(Fields()).(logReasonTypeId := logReasonTypeId)
    {
      this.logReasonTypeId := logReasonTypeId;
    }

    method SetLogSourceTypeId(logSourceTypeId: Option<Int32>)
      modifies this
      ensures Fields() == old(Fields()).(logSourceTypeId := logSourceTypeId)
    {
      this.logSourceTypeId := logSourceTypeId;
    }

    method SetSourceUrl(sourceUrl: Option<string>)
      modifies this
      ensures Fields() == old(Fields()).(sourceUrl := sourceUrl)
    {
      this.sourceUrl := sourceUrl;
    }
  }
}
