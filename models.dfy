/**
 * The form validator of the `models` package and the reply kinds of the
 * snippet store.  A Go string is a `seq<char>` here; since a Dafny `char` is a
 * Unicode scalar value, the rune count of a string is its length.
 */
module Models {

  /** What a store operation returns: a value, `ErrNoRecord`, or any other error. */
  datatype Reply<T> = Found(value: T) | NoRecord | Failed

  /** A row of the snippets table; the two timestamps are kept as opaque numbers. */
  datatype Snippet = Snippet(id: int, title: string, content: string, created: int, expires: int)

  // ---------------------------------------------------------------------------
  // Whitespace and trimming (the behaviour of strings.TrimSpace)
  // ---------------------------------------------------------------------------

  /** Go's unicode.IsSpace: the ASCII spaces, NEL, NBSP and the White_Space code points. */
  predicate IsSpace(c: char)
  {
    || c == '\t' || c == '\n' || c == '\U{000B}' || c == '\U{000C}' || c == '\r' || c == ' '
    || c == '\U{0085}' || c == '\U{00A0}' || c == '\U{1680}'
    || ('\U{2000}' <= c <= '\U{200A}')
    || c == '\U{2028}' || c == '\U{2029}' || c == '\U{202F}' || c == '\U{205F}' || c == '\U{3000}'
  }

  /** Drops the leading whitespace: the result is a suffix of `s`, everything dropped is whitespace. */
  function TrimLeft(s: string): (r: string)
    ensures |r| <= |s| && r == s[|s| - |r|..]
    ensures forall k :: 0 <= k < |s| - |r| ==> IsSpace(s[k])
    ensures r == [] || !IsSpace(r[0])
  {
    if s == [] || !IsSpace(s[0]) then s else TrimLeft(s[1..])
  }

  /** Drops the trailing whitespace: the result is a prefix of `s`, everything dropped is whitespace. */
  function TrimRight(s: string): (r: string)
    ensures |r| <= |s| && r == s[..|r|]
    ensures forall k :: |r| <= k < |s| ==> IsSpace(s[k])
    ensures r == [] || !IsSpace(r[|r| - 1])
  {
    if s == [] || !IsSpace(s[|s| - 1]) then s else TrimRight(s[..|s| - 1])
  }

  /**
   * strings.TrimSpace: `s` with leading and trailing whitespace removed.  The
   * result is empty exactly when `s` is all whitespace, and otherwise it starts
   * and ends with a non-space character.
   */
  function TrimSpace(s: string): (r: string)
    ensures |r| <= |s|
    ensures exists i, j :: 0 <= i <= j <= |s| && r == s[i..j] && SpaceOutside(s, i, j)
    ensures r == [] <==> forall k :: 0 <= k < |s| ==> IsSpace(s[k])
    ensures r != [] ==> !IsSpace(r[0]) && !IsSpace(r[|r| - 1])
  {
    var left := TrimLeft(s);
    var r := TrimRight(left);
    SliceAround(s, |s| - |left|, left, r);
    TrimSpaceEmptyIff(s, left, r);
    r
  }

  /** Everything before index `i` and from index `j` on is whitespace. */
  predicate SpaceOutside(s: string, i: int, j: int)
    requires 0 <= i <= j <= |s|
  {
    && (forall k :: 0 <= k < i ==> IsSpace(s[k]))
    && (forall k :: j <= k < |s| ==> IsSpace(s[k]))
  }

  /**
   * A prefix `r` of the suffix `left` of `s` that starts at `i` is the slice
   * of `s` from `i`; whitespace after `r` in `left` is whitespace after it in `s`.
   */
  lemma SliceAround(s: string, i: int, left: string, r: string)
    requires 0 <= i <= |s| && left == s[i..] && |r| <= |left| && r == left[..|r|]
    requires forall k :: 0 <= k < i ==> IsSpace(s[k])
    requires forall k :: |r| <= k < |left| ==> IsSpace(left[k])
    ensures 0 <= i <= i + |r| <= |s| && r == s[i..i + |r|] && SpaceOutside(s, i, i + |r|)
  {
    forall k | i + |r| <= k < |s|
      ensures IsSpace(s[k])
    {
      assert s[k] == left[k - i];
    }
  }

  /** The two trims together leave nothing exactly when every character is whitespace. */
  lemma TrimSpaceEmptyIff(s: string, left: string, r: string)
    requires left == TrimLeft(s) && r == TrimRight(left)
    ensures r == [] <==> forall k :: 0 <= k < |s| ==> IsSpace(s[k])
    ensures r != [] ==> !IsSpace(r[0])
  {
    if r != [] {
      assert r[0] == left[0] == s[|s| - |left|];
    }
  }

  // ---------------------------------------------------------------------------
  // The checks a validator is combined with
  // ---------------------------------------------------------------------------

  /** NotBlank: false exactly when the value is empty after trimming, i.e. all whitespace. */
  function NotBlank(value: string): (ok: bool)
    ensures ok <==> exists k :: 0 <= k < |value| && !IsSpace(value[k])
  {
    TrimSpace(value) != ""
  }

  /** MaxChars: the rune count of the value is at most `max`. */
  function MaxChars(value: string, max: int): (ok: bool)
    ensures ok <==> |value| <= max
  {
    |value| <= max
  }

  /** MinChars: the rune count of the value is at least `min`. */
  function MinChars(value: string, min: int): (ok: bool)
    ensures ok <==> |value| >= min
  {
    |value| >= min
  }

  /** PermittedValue: a linear scan that stops at the first permitted value equal to `val`. */
  method PermittedValue<T(==)>(val: T, permittedValues: seq<T>) returns (found: bool)
    ensures found <==> val in permittedValues
  {
    for i := 0 to |permittedValues|
      invariant forall j :: 0 <= j < i ==> permittedValues[j] != val
    {
      if permittedValues[i] == val {
        return true;
      }
    }
    return false;
  }

  /** Confirms, as written: true when the two values DIFFER. */
  function Confirms<T(==)>(s1: T, s2: T): (r: bool)
    ensures r <==> s1 != s2
  {
    s1 != s2
  }

  // ---------------------------------------------------------------------------
  // The validator's state and how an error is recorded
  // ---------------------------------------------------------------------------

  /**
   * The field-error map after recording `message` for `key`: the key is present
   * afterwards, an existing message is never replaced (the first error for a key
   * wins), and no other key is added or changed.
   */
  function WithFieldError(errors: map<string, string>, key: string, message: string): (r: map<string, string>)
    ensures r.Keys == errors.Keys + {key}
    ensures forall k :: k in errors ==> r[k] == errors[k]
    ensures key !in errors ==> r[key] == message
  {
    if key in errors then errors else errors[key := message]
  }

  /** Recording a second error for the same key changes nothing. */
  lemma FirstFieldErrorWins(errors: map<string, string>, key: string, first: string, second: string)
    ensures WithFieldError(WithFieldError(errors, key, first), key, second) == WithFieldError(errors, key, first)
    ensures WithFieldError(WithFieldError(errors, key, first), key, second)[key]
            == if key in errors then errors[key] else first
  {
  }

  /** One `CheckField(ok, key, message)` call, as data. */
  datatype Check = Check(ok: bool, key: string, message: string)

  /** The field errors after the checks `cs` are applied in order by CheckField. */
  function AfterChecks(errors: map<string, string>, cs: seq<Check>): map<string, string>
    decreases |cs|
  {
    if cs == [] then errors
    else
      var next := if cs[0].ok then errors else WithFieldError(errors, cs[0].key, cs[0].message);
      AfterChecks(next, cs[1..])
  }

  /**
   * Applying the checks `cs` and then one more check `c` is applying `cs + [c]`:
   * a run of CheckField calls, one at a time, builds AfterChecks of the whole run.
   */
  lemma {:induction false} AfterChecksAppend(errors: map<string, string>, cs: seq<Check>, c: Check)
    ensures AfterChecks(errors, cs + [c]) == AfterChecks(AfterChecks(errors, cs), [c])
    decreases |cs|
  {
    if cs == [] {
      assert cs + [c] == [c];
    } else {
      var next := if cs[0].ok then errors else WithFieldError(errors, cs[0].key, cs[0].message);
      assert (cs + [c])[0] == cs[0];
      assert (cs + [c])[1..] == cs[1..] + [c];
      AfterChecksAppend(next, cs[1..], c);
    }
  }

  /** `i` is the first failing check for `key` among `cs`. */
  predicate FirstFailure(cs: seq<Check>, key: string, i: int)
  {
    && 0 <= i < |cs| && !cs[i].ok && cs[i].key == key
    && forall j :: 0 <= j < i ==> cs[j].ok || cs[j].key != key
  }

  /** A key carries an error after the checks iff it had one before or some check for it failed. */
  lemma {:induction false} AfterChecksHasKey(errors: map<string, string>, cs: seq<Check>, key: string)
    ensures key in AfterChecks(errors, cs) <==>
            key in errors || exists i :: 0 <= i < |cs| && !cs[i].ok && cs[i].key == key
    decreases |cs|
  {
    if cs != [] {
      var next := if cs[0].ok then errors else WithFieldError(errors, cs[0].key, cs[0].message);
      AfterChecksHasKey(next, cs[1..], key);
      assert AfterChecks(errors, cs) == AfterChecks(next, cs[1..]);
      if key in AfterChecks(errors, cs) && key !in errors && key !in next {
        var i :| 0 <= i < |cs[1..]| && !cs[1..][i].ok && cs[1..][i].key == key;
        assert !cs[i + 1].ok && cs[i + 1].key == key;
      }
      if exists i :: 0 <= i < |cs| && !cs[i].ok && cs[i].key == key {
        var i :| 0 <= i < |cs| && !cs[i].ok && cs[i].key == key;
        if i > 0 {
          assert !cs[1..][i - 1].ok && cs[1..][i - 1].key == key;
        }
      }
    }
  }

  /** A message recorded before the checks is never replaced by them. */
  lemma {:induction false} AfterChecksKeepsEarlier(errors: map<string, string>, cs: seq<Check>, key: string)
    requires key in errors
    ensures key in AfterChecks(errors, cs) && AfterChecks(errors, cs)[key] == errors[key]
    decreases |cs|
  {
    if cs != [] {
      var next := if cs[0].ok then errors else WithFieldError(errors, cs[0].key, cs[0].message);
      AfterChecksKeepsEarlier(next, cs[1..], key);
    }
  }

  /** A key without an earlier error gets the message of the first failing check for it. */
  lemma {:induction false} AfterChecksFirstFailure(errors: map<string, string>, cs: seq<Check>, key: string, i: int)
    requires key !in errors && FirstFailure(cs, key, i)
    ensures key in AfterChecks(errors, cs) && AfterChecks(errors, cs)[key] == cs[i].message
    decreases |cs|
  {
    var next := if cs[0].ok then errors else WithFieldError(errors, cs[0].key, cs[0].message);
    if i == 0 {
      AfterChecksKeepsEarlier(next, cs[1..], key);
    } else {
      assert FirstFailure(cs[1..], key, i - 1);
      AfterChecksFirstFailure(next, cs[1..], key, i - 1);
    }
  }

  /**
   * After a sequence of CheckField calls a key carries an error iff it had one
   * before or some check for it failed; its message is the one it had before,
   * or else the message of the FIRST failing check for it.
   */
  lemma {:induction false} AfterChecksFirstFailureWins(errors: map<string, string>, cs: seq<Check>, key: string)
    ensures key in AfterChecks(errors, cs) <==>
            key in errors || exists i :: 0 <= i < |cs| && !cs[i].ok && cs[i].key == key
    ensures key in errors ==> AfterChecks(errors, cs)[key] == errors[key]
    ensures forall i :: key !in errors && FirstFailure(cs, key, i) ==> AfterChecks(errors, cs)[key] == cs[i].message
  {
    AfterChecksHasKey(errors, cs, key);
    if key in errors {
      AfterChecksKeepsEarlier(errors, cs, key);
    }
    forall i | key !in errors && FirstFailure(cs, key, i)
      ensures AfterChecks(errors, cs)[key] == cs[i].message
    {
      AfterChecksFirstFailure(errors, cs, key, i);
    }
  }

  /**
   * The validator embedded into a form: non-field errors are only ever
   * appended, and the first error recorded for a field is kept.  Go's nil map
   * and empty map read the same, and AddFieldError allocates the map before it
   * writes, so both are the empty map here.
   */
  class Validator {
    var nonFieldErrors: seq<string>
    var fieldErrors: map<string, string>

    constructor ()
      ensures nonFieldErrors == [] && fieldErrors == map[]
    {
      nonFieldErrors := [];
      fieldErrors := map[];
    }

    /** Valid: no field error and no non-field error has been recorded. */
    function Valid(): (ok: bool)
      reads this
      ensures ok <==> fieldErrors == map[] && nonFieldErrors == []
    {
      |fieldErrors| == 0 && |nonFieldErrors| == 0
    }

    /** AddFieldError: records `message` for `key` unless the key already has one. */
    method AddFieldError(key: string, message: string)
      modifies this
      ensures fieldErrors == WithFieldError(old(fieldErrors), key, message)
      ensures nonFieldErrors == old(nonFieldErrors)
      ensures !Valid()
    {
      if key !in fieldErrors {
        fieldErrors := fieldErrors[key := message];
      }
    }

    /** AddNonFieldError: appends `message`; earlier messages and the field errors stay as they were. */
    method AddNonFieldError(message: string)
      modifies this
      ensures nonFieldErrors == old(nonFieldErrors) + [message]
      ensures fieldErrors == old(fieldErrors)
      ensures !Valid()
    {
      nonFieldErrors := nonFieldErrors + [message];
    }

    /** CheckField: a passing check changes nothing; a failing one is AddFieldError. */
    method CheckField(ok: bool, key: string, message: string)
      modifies this
      ensures fieldErrors == AfterChecks(old(fieldErrors), [Check(ok, key, message)])
      ensures ok ==> fieldErrors == old(fieldErrors)
      ensures !ok ==> fieldErrors == WithFieldError(old(fieldErrors), key, message)
      ensures nonFieldErrors == old(nonFieldErrors)
      ensures !ok ==> !Valid()
    {
      if !ok {
        AddFieldError(key, message);
      }
    }
  }
}
