/**
 The minute-precision key a start time is remembered and compared under. Time zones are a parameter:
 `zoned` is the offered zone's reading of an instant, None when there is no zone or no such instant.
 */
module WallClock {
  import opened Wrappers

  type Zoned = string -> Option<string>

  predicate IsDigit(c: char) {
    '0' <= c <= '9'
  }

  /** `dd:dd` at position `i`. */
  predicate ClockAt(s: string, i: int) {
    0 <= i && i + 5 <= |s| && IsDigit(s[i]) && IsDigit(s[i + 1]) && s[i + 2] == ':' && IsDigit(s[i + 3])
      && IsDigit(s[i + 4])
  }

  /** `dddd-dd-ddTdd:dd` at position `i`. */
  predicate DateClockAt(s: string, i: int) {
    && 0 <= i && i + 16 <= |s|
    && IsDigit(s[i]) && IsDigit(s[i + 1]) && IsDigit(s[i + 2]) && IsDigit(s[i + 3]) && s[i + 4] == '-'
    && IsDigit(s[i + 5]) && IsDigit(s[i + 6]) && s[i + 7] == '-'
    && IsDigit(s[i + 8]) && IsDigit(s[i + 9]) && s[i + 10] == 'T' && ClockAt(s, i + 11)
  }

  /** A bare key: date, `T`, clock, and nothing else. */
  predicate IsKey(s: string) {
    |s| == 16 && DateClockAt(s, 0)
  }

  predicate EndsWithClock(s: string) {
    |s| >= 6 && s[|s| - 6] == 'T' && ClockAt(s, |s| - 5)
  }

  predicate IsSign(c: char) {
    c == '+' || c == '-'
  }

  /** Ends in `Z`, `z`, or a numeric offset with or without its colon. */
  predicate EndsWithOffset(s: string) {
    || (|s| >= 1 && (s[|s| - 1] == 'Z' || s[|s| - 1] == 'z'))
    || (|s| >= 6 && IsSign(s[|s| - 6]) && ClockAt(s, |s| - 5))
    || (|s| >= 5 && IsSign(s[|s| - 5]) && IsDigit(s[|s| - 4]) && IsDigit(s[|s| - 3]) && IsDigit(s[|s| - 2])
       && IsDigit(s[|s| - 1]))
  }

  function FirstDateClock(s: string, i: nat): (r: Option<nat>)
    requires i <= |s|
    ensures r.Some? ==> i <= r.value && DateClockAt(s, r.value) && forall j :: i <= j < r.value ==> !DateClockAt(s, j)
    ensures r.None? ==> forall j :: i <= j ==> !DateClockAt(s, j)
    decreases |s| - i
  {
    if i == |s| then None
    else if DateClockAt(s, i) then Some(i)
    else FirstDateClock(s, i + 1)
  }

  function Key(zoned: Zoned, s: string): string {
    if EndsWithOffset(s) && zoned(s).Some? then zoned(s).value
    else match FirstDateClock(s, 0)
         case Some(i) => s[i..i + 16]
         case None => s
  }

  /** The format the zone reading is printed in ends in `T` and a clock. */
  ghost predicate PrintsClocks(zoned: Zoned) {
    forall s :: zoned(s).Some? ==> EndsWithClock(zoned(s).value)
  }

  /** The nudge hands the model a stored key with seconds. */
  function WithSeconds(key: string): string {
    if EndsWithClock(key) then key + ":00" else key
  }

  lemma SecondsAreNoOffset(key: string)
    requires EndsWithClock(key)
    ensures !EndsWithOffset(key + ":00")
  {
    var s := key + ":00";
    assert s[|s| - 1] == '0' && s[|s| - 3] == ':' && s[|s| - 6] == ':' && s[|s| - 5] == key[|key| - 2];
  }

  /** A key with seconds is keyed back to itself exactly when it is a bare key or no clock was there to extend. */
  lemma ReKeyingIsStable(zoned: Zoned, given: string)
    requires PrintsClocks(zoned)
    ensures var key := Key(zoned, given);
      Key(zoned, WithSeconds(key)) == key <==> IsKey(key) || !EndsWithClock(key)
  {
    var key := Key(zoned, given);
    if EndsWithClock(key) {
      var s := key + ":00";
      SecondsAreNoOffset(key);
      if IsKey(key) {
        assert forall i :: 0 <= i < 16 ==> s[i] == key[i];
        assert DateClockAt(s, 0);
        assert s[0..16] == key;
      }
    }
  }

  /** A zoneless date and time reads as its own date and clock. */
  lemma DocumentedShapeIsStable(zoned: Zoned, given: string)
    requires DateClockAt(given, 0) && !EndsWithOffset(given)
    ensures IsKey(Key(zoned, given)) && Key(zoned, given) == given[..16]
    ensures Key(zoned, WithSeconds(Key(zoned, given))) == Key(zoned, given)
  {
    var key := given[..16];
    assert FirstDateClock(given, 0) == Some(0);
    assert given[0..16] == key;
    assert forall i :: 0 <= i < 16 ==> key[i] == given[i];
    var s := key + ":00";
    SecondsAreNoOffset(key);
    assert forall i :: 0 <= i < 16 ==> s[i] == key[i];
    assert FirstDateClock(s, 0) == Some(0) && s[0..16] == key;
  }

  /** Where it fails: a word ending in a clock gains seconds it never loses. */
  lemma UndatedClockIsUnstable(zoned: Zoned)
    requires PrintsClocks(zoned)
    ensures Key(zoned, "fooT14:00") == "fooT14:00"
    ensures Key(zoned, WithSeconds("fooT14:00")) == "fooT14:00:00"
  {
    assert FirstDateClock("fooT14:00", 0).None?;
    assert "fooT14:00" + ":00" == "fooT14:00:00";
    assert FirstDateClock("fooT14:00:00", 0).None?;
  }

  // ---------------------------------------------------------------- the shapes, as templates

  /** `template` stands in `s` at `i`, a `d` in it for any digit. */
  predicate Matches(s: string, i: int, template: string) {
    && 0 <= i <= |s| - |template|
    && forall j :: 0 <= j < |template| ==>
       if template[j] == 'd' then '0' <= s[i + j] <= '9' else s[i + j] == template[j]
  }

  predicate EndsIn(s: string, template: string) {
    Matches(s, |s| - |template|, template)
  }

  const DATED := "dddd-dd-ddTdd:dd"
  const OFFSETS := ["Z", "z", "+dd:dd", "-dd:dd", "+dddd", "-dddd"]

  predicate HasOffset(s: string) {
    exists n :: 0 <= n < |OFFSETS| && EndsIn(s, OFFSETS[n])
  }

  lemma ClockMatches(s: string, i: int)
    ensures Matches(s, i, "dd:dd") <==> ClockAt(s, i)
  {
    if Matches(s, i, "dd:dd") {
      assert forall j :: 0 <= j < 5 ==> if "dd:dd"[j] == 'd' then '0' <= s[i + j] <= '9' else s[i + j] == "dd:dd"[j];
      assert "dd:dd"[0] == 'd' && "dd:dd"[1] == 'd' && "dd:dd"[2] == ':' && "dd:dd"[3] == 'd' && "dd:dd"[4] == 'd';
    }
  }

  lemma DatedMatches(s: string, i: int)
    ensures Matches(s, i, DATED) <==> DateClockAt(s, i)
  {
    if Matches(s, i, DATED) {
      forall j | 0 <= j < 16 ensures if DATED[j] == 'd' then IsDigit(s[i + j]) else s[i + j] == DATED[j] {
      }
      assert DATED[0] == DATED[1] == DATED[2] == DATED[3] == DATED[5] == DATED[6] == DATED[8] == DATED[9] == 'd';
      assert DATED[4] == DATED[7] == '-' && DATED[10] == 'T' && DATED[13] == ':';
      assert DATED[11] == DATED[12] == DATED[14] == DATED[15] == 'd';
    }
  }

  /** `c` and then what the template says, at the end. */
  predicate Tail(s: string, c: char, template: string) {
    |s| > |template| && s[|s| - |template| - 1] == c && EndsIn(s, template)
  }

  lemma TailsMatch(s: string)
    ensures EndsIn(s, "Z") == Tail(s, 'Z', "") && EndsIn(s, "z") == Tail(s, 'z', "")
    ensures EndsIn(s, "Tdd:dd") == Tail(s, 'T', "dd:dd")
    ensures EndsIn(s, "+dd:dd") == Tail(s, '+', "dd:dd") && EndsIn(s, "-dd:dd") == Tail(s, '-', "dd:dd")
    ensures EndsIn(s, "+dddd") == Tail(s, '+', "dddd") && EndsIn(s, "-dddd") == Tail(s, '-', "dddd")
  {
    LeadMatches(s, 'Z', "");
    LeadMatches(s, 'z', "");
    LeadMatches(s, 'T', "dd:dd");
    LeadMatches(s, '+', "dd:dd");
    LeadMatches(s, '-', "dd:dd");
    LeadMatches(s, '+', "dddd");
    LeadMatches(s, '-', "dddd");
    hide EndsIn, Tail;
    assert ['T'] + "dd:dd" == "Tdd:dd" && ['+'] + "dd:dd" == "+dd:dd" && ['-'] + "dd:dd" == "-dd:dd";
    assert ['+'] + "dddd" == "+dddd" && ['-'] + "dddd" == "-dddd" && ['Z'] + "" == "Z" && ['z'] + "" == "z";
  }

  lemma EndsMatch(s: string)
    ensures EndsIn(s, "Tdd:dd") <==> EndsWithClock(s)
    ensures EndsIn(s, "Z") || EndsIn(s, "z") <==> |s| >= 1 && (s[|s| - 1] == 'Z' || s[|s| - 1] == 'z')
    ensures EndsIn(s, "+dd:dd") || EndsIn(s, "-dd:dd") <==> |s| >= 6 && IsSign(s[|s| - 6]) && ClockAt(s, |s| - 5)
    ensures EndsIn(s, "+dddd") || EndsIn(s, "-dddd")
      <==> |s| >= 5 && IsSign(s[|s| - 5]) && forall j :: |s| - 4 <= j < |s| ==> IsDigit(s[j])
  {
    TailsMatch(s);
    ClockMatches(s, |s| - 5);
    DigitsMatch(s, |s| - 4);
    assert EndsIn(s, "");
    assert EndsIn(s, "dd:dd") == Matches(s, |s| - 5, "dd:dd") && EndsIn(s, "dddd") == Matches(s, |s| - 4, "dddd");
    hide EndsIn, Matches, ClockAt;
  }

  lemma DigitsMatch(s: string, i: int)
    requires i + 4 == |s|
    ensures Matches(s, i, "dddd") <==> i >= 0 && forall j :: i <= j < |s| ==> IsDigit(s[j])
  {
    if Matches(s, i, "dddd") {
      forall j | i <= j < |s| ensures IsDigit(s[j]) {
        assert "dddd"[j - i] == 'd' && s[i + (j - i)] == s[j];
      }
    }
  }

  lemma LeadMatches(s: string, c: char, template: string)
    requires c != 'd'
    ensures EndsIn(s, [c] + template) == Tail(s, c, template)
  {
    var whole := [c] + template;
    if EndsIn(s, whole) {
      var i := |s| - |whole|;
      assert whole[0] == c;
      forall j | 0 <= j < |template|
        ensures if template[j] == 'd' then '0' <= s[i + 1 + j] <= '9' else s[i + 1 + j] == template[j]
      {
        assert whole[j + 1] == template[j];
      }
    }
  }

  /** Every shape the code tests for is one of these templates. */
  lemma ShapesAreTemplates(s: string, i: int)
    ensures ClockAt(s, i) <==> Matches(s, i, "dd:dd")
    ensures DateClockAt(s, i) <==> Matches(s, i, DATED)
    ensures IsKey(s) <==> |s| == 16 && Matches(s, 0, DATED)
    ensures EndsWithClock(s) <==> EndsIn(s, "Tdd:dd")
    ensures EndsWithOffset(s) <==> HasOffset(s)
  {
    ClockMatches(s, i);
    DatedMatches(s, i);
    DatedMatches(s, 0);
    EndsMatch(s);
    assert OFFSETS[0] == "Z" && OFFSETS[1] == "z" && OFFSETS[2] == "+dd:dd" && OFFSETS[3] == "-dd:dd";
    assert OFFSETS[4] == "+dddd" && OFFSETS[5] == "-dddd";
    assert HasOffset(s) == (EndsIn(s, OFFSETS[0]) || EndsIn(s, OFFSETS[1]) || EndsIn(s, OFFSETS[2])
                            || EndsIn(s, OFFSETS[3]) || EndsIn(s, OFFSETS[4]) || EndsIn(s, OFFSETS[5]));
  }

  /**
   What a start time is remembered under: the zone's reading, if it ends in an offset and the zone can read it;
   else its first date and clock; else itself. What the nudge hands out is that, with seconds after a clock.
   */
  lemma KeyedExactly(zoned: Zoned, s: string)
    ensures HasOffset(s) && zoned(s).Some? ==> Key(zoned, s) == zoned(s).value
    ensures !(HasOffset(s) && zoned(s).Some?) ==>
      && (forall i :: Matches(s, i, DATED) && (forall j :: 0 <= j < i ==> !Matches(s, j, DATED)) ==>
            Key(zoned, s) == s[i..i + 16])
      && ((forall i :: !Matches(s, i, DATED)) ==> Key(zoned, s) == s)
    ensures WithSeconds(s) == if EndsIn(s, "Tdd:dd") then s + ":00" else s
  {
    ShapesAreTemplates(s, 0);
    forall i ensures DateClockAt(s, i) <==> Matches(s, i, DATED) {
      DatedMatches(s, i);
    }
  }
}
