/**
 * Go error values as the driver builds them: plain messages (`errors.New`,
 * `fmt.Errorf` without `%w`), wrapped errors (`fmt.Errorf` with `%w`), the two
 * error types of error.go, and the result of `errors.Join`. A nil `error` is
 * `None`.
 */
module Errors {
  import opened Wrappers
  import GoText

  datatype Error =
    | Text(msg: string)                     // errors.New, fmt.Errorf without %w
    | Wrap(prefix: string, cause: Error)    // fmt.Errorf("<prefix>%w", cause)
    | RequiredFlag(flag: string)            // *RequiredFlagError
    | FlagParse(flag: string, err: Error)   // *FlagParseError
    | Joined(errs: seq<Error>)              // the value errors.Join returns

  /** A Go call that returns `(T, error)`. */
  datatype Result<T> = Ok(value: T) | Err(error: Error)

  /**
   * `Error()` of each kind; a joined error lists its members one per line.
   * A wrapper's message ends with its cause's, and a join of one error
   * prints as that error.
   */
  function Message(e: Error): (m: string)
    ensures e.Wrap? ==> EndsWith(m, Message(e.cause))
    ensures e.FlagParse? ==> EndsWith(m, Message(e.err))
    ensures e.Joined? && e.errs == [] ==> m == ""
    ensures e.Joined? && |e.errs| == 1 ==> m == Message(e.errs[0])
  {
    match e
    case Text(msg) => msg
    case Wrap(prefix, cause) => prefix + Message(cause)
    case RequiredFlag(flag) => "required option " + GoText.Quote(flag) + " not set"
    case FlagParse(flag, err) => "failed parsing flag " + GoText.Quote(flag) + ": " + Message(err)
    case Joined(errs) => GoText.Join(MessagesOf(errs), '\n')
  }

  /** `s` ends with `suffix`. */
  predicate EndsWith(s: string, suffix: string)
  {
    |suffix| <= |s| && s[|s| - |suffix|..] == suffix
  }

  function MessagesOf(errs: seq<Error>): (ms: seq<string>)
    ensures |ms| == |errs|
  {
    if errs == [] then [] else [Message(errs[0])] + MessagesOf(errs[1..])
  }

  /** The message at each position is that of the error at that position. */
  lemma {:induction false} MessagesOfAt(errs: seq<Error>)
    ensures forall i :: 0 <= i < |errs| ==> MessagesOf(errs)[i] == Message(errs[i])
  {
    if errs != [] {
      MessagesOfAt(errs[1..]);
    }
  }

  /**
   * `errors.Unwrap`: the single wrapped error. Only `%w` wrappers and
   * `FlagParseError` offer one; a joined error offers a list instead, which
   * `errors.Unwrap` ignores.
   */
  function Unwrap(e: Error): (r: Option<Error>)
    ensures r.Some? <==> e.Wrap? || e.FlagParse?
    ensures r.Some? ==> EndsWith(Message(e), Message(r.value))
  {
    match e
    case Wrap(_, cause) => Some(cause)
    case FlagParse(_, err) => Some(err)
    case _ => None
  }

  /** The line a `RequiredFlagError` prints: `required option "<flag>" not set`. */
  function RequiredText(flag: string): string
  {
    "required option \"" + flag + "\" not set"
  }

  /** `NewRequiredFlagError`: the flag is kept as given and named in the message. */
  function NewRequiredFlagError(option: string): (e: Error)
    ensures e.RequiredFlag? && e.flag == option
    ensures Message(e) == RequiredText(option)
    ensures Unwrap(e) == None
  {
    RequiredFlag(option)
  }

  /** `NewFlagParseError`: both fields kept as given; `Unwrap` gives the cause back. */
  function NewFlagParseError(flag: string, err: Error): (e: Error)
    ensures e.FlagParse? && e.flag == flag
    ensures Unwrap(e) == Some(err)
    ensures Message(e) == "failed parsing flag \"" + flag + "\": " + Message(err)
  {
    FlagParse(flag, err)
  }

  /** The message of a `RequiredFlagError` determines its flag. */
  lemma RequiredFlagMessageInjective(a: string, b: string)
    requires Message(NewRequiredFlagError(a)) == Message(NewRequiredFlagError(b))
    ensures a == b
  {
    var ma := Message(RequiredFlag(a));
    var mb := Message(RequiredFlag(b));
    assert |a| == |b|;
    forall i | 0 <= i < |a| ensures a[i] == b[i] {
      assert a[i] == ma[17 + i] && b[i] == mb[17 + i];
    }
  }

  // ---------------------------------------------------------------------------
  // errors.Join

  /** The non-nil arguments, in order. */
  function Present(errs: seq<Option<Error>>): (p: seq<Error>)
    ensures |p| <= |errs|
    ensures p == [] <==> forall i :: 0 <= i < |errs| ==> errs[i].None?
  {
    if errs == [] then []
    else if errs[0].None? then Present(errs[1..])
    else [errs[0].value] + Present(errs[1..])
  }

  /** `errors.Join(errs...)`: nil when every argument is nil, else the list of the others. */
  function JoinErrors(errs: seq<Option<Error>>): (r: Option<Error>)
    ensures r.None? <==> forall i :: 0 <= i < |errs| ==> errs[i].None?
    ensures r.Some? ==> r.value == Joined(Present(errs)) && r.value.errs != []
  {
    var p := Present(errs);
    if p == [] then None else Some(Joined(p))
  }

  /** The errors a joined error is made of, with nested joins flattened. */
  function Leaves(e: Error): seq<Error>
  {
    match e
    case Joined(errs) => LeavesOf(errs)
    case _ => [e]
  }

  function LeavesOf(errs: seq<Error>): seq<Error>
  {
    if errs == [] then [] else Leaves(errs[0]) + LeavesOf(errs[1..])
  }

  /** The errors an accumulated (possibly nil) error holds. */
  function Constituents(acc: Option<Error>): seq<Error>
  {
    if acc.None? then [] else Leaves(acc.value)
  }

  /** Every joined error, at any depth, has at least one member. */
  predicate WellFormed(e: Error)
  {
    match e
    case Joined(errs) => errs != [] && AllWellFormed(errs)
    case _ => true
  }

  predicate AllWellFormed(errs: seq<Error>)
  {
    errs == [] || (WellFormed(errs[0]) && AllWellFormed(errs[1..]))
  }

  /**
   * Joining an accumulator with one more error that is not itself a join
   * appends that error to the accumulator's constituents, and keeps the
   * accumulator well formed.
   */
  lemma JoinAppends(acc: Option<Error>, e: Error)
    requires !e.Joined?
    requires acc.Some? ==> WellFormed(acc.value)
    ensures JoinErrors([acc, Some(e)]).Some?
    ensures Constituents(JoinErrors([acc, Some(e)])) == Constituents(acc) + [e]
    ensures WellFormed(JoinErrors([acc, Some(e)]).value)
  {
    var args := [acc, Some(e)];
    assert args[1..] == [Some(e)];
    assert [Some(e)][1..] == [];
    if acc.None? {
      assert Present(args) == [e];
      assert LeavesOf([e]) == [e] + LeavesOf([]);
    } else {
      assert Present(args) == [acc.value, e];
      assert [acc.value, e][1..] == [e];
      assert LeavesOf([e]) == [e] + LeavesOf([]);
      assert LeavesOf([acc.value, e]) == Leaves(acc.value) + LeavesOf([e]);
      assert AllWellFormed([e]);
    }
  }

  /** Joining an accumulator with nil keeps nil nil and keeps the constituents. */
  lemma JoinNil(acc: Option<Error>)
    requires acc.Some? ==> WellFormed(acc.value)
    ensures JoinErrors([acc, None]).None? <==> acc.None?
    ensures Constituents(JoinErrors([acc, None])) == Constituents(acc)
    ensures JoinErrors([acc, None]).Some? ==> WellFormed(JoinErrors([acc, None]).value)
  {
    var args: seq<Option<Error>> := [acc, None];
    assert args[1..] == [None];
    var nil: seq<Option<Error>> := [None];
    assert Present(nil) == Present(nil[1..]);
    assert nil[1..] == [];
    if acc.Some? {
      assert Present(args) == [acc.value];
      assert LeavesOf([acc.value]) == Leaves(acc.value) + LeavesOf([]);
      assert [acc.value][1..] == [];
    }
  }

  lemma {:induction false} MessagesOfConcat(a: seq<Error>, b: seq<Error>)
    ensures MessagesOf(a + b) == MessagesOf(a) + MessagesOf(b)
  {
    if a == [] {
      assert a + b == b;
    } else {
      MessagesOfConcat(a[1..], b);
      assert (a + b)[1..] == a[1..] + b;
    }
  }

  /**
   * The message of a well-formed error lists the messages of its
   * constituents one per line, however the joins were nested.
   */
  lemma {:induction false} MessageLines(e: Error)
    requires WellFormed(e)
    ensures Leaves(e) != []
    ensures Message(e) == GoText.Join(MessagesOf(Leaves(e)), '\n')
    decreases e, 1
  {
    match e
    case Joined(errs) =>
      MessageLinesOf(errs);
    case _ =>
      assert MessagesOf([e]) == [Message(e)] + MessagesOf([]);
  }

  lemma {:induction false} MessageLinesOf(errs: seq<Error>)
    requires errs != [] && AllWellFormed(errs)
    ensures LeavesOf(errs) != []
    ensures GoText.Join(MessagesOf(errs), '\n') == GoText.Join(MessagesOf(LeavesOf(errs)), '\n')
    decreases errs, 0
  {
    MessageLines(errs[0]);
    var head := Leaves(errs[0]);
    var rest := errs[1..];
    if rest == [] {
      assert LeavesOf(rest) == [];
      assert LeavesOf(errs) == head;
    } else {
      MessageLinesOf(rest);
      MessagesOfConcat(head, LeavesOf(rest));
      GoText.JoinConcat(MessagesOf(head), MessagesOf(LeavesOf(rest)), '\n');
      assert MessagesOf(errs)[1..] == MessagesOf(rest);
    }
  }

  // ---------------------------------------------------------------------------
  // Accumulating errors one join at a time.

  /**
   * `acc = errors.Join(acc, e)` for each `e` in turn, as the driver threads
   * its accumulated error through a run of checks.
   */
  function JoinEach(acc: Option<Error>, es: seq<Option<Error>>): (r: Option<Error>)
    ensures acc.Some? ==> r.Some?
    decreases |es|
  {
    if es == [] then acc else JoinErrors([JoinEach(acc, es[..|es| - 1]), es[|es| - 1]])
  }

  /** One more `errors.Join(acc, e)` after a run of them. */
  lemma JoinEachSnoc(acc: Option<Error>, es: seq<Option<Error>>, e: Option<Error>)
    ensures JoinEach(acc, es + [e]) == JoinErrors([JoinEach(acc, es), e])
  {
    assert (es + [e])[..|es|] == es;
  }

  /** No argument is itself a joined error. */
  predicate NoJoins(es: seq<Option<Error>>)
  {
    forall i :: 0 <= i < |es| && es[i].Some? ==> !es[i].value.Joined?
  }

  lemma {:induction false} PresentConcat(a: seq<Option<Error>>, b: seq<Option<Error>>)
    ensures Present(a + b) == Present(a) + Present(b)
  {
    if a != [] {
      PresentConcat(a[1..], b);
      assert (a + b)[1..] == a[1..] + b;
    } else {
      assert a + b == b;
    }
  }

  /**
   * Threading an accumulator through joins collects exactly the non-nil
   * errors, in order, after what the accumulator held; the result is nil iff
   * the accumulator was nil and every error was nil.
   */
  lemma {:induction false} JoinEachConstituents(acc: Option<Error>, es: seq<Option<Error>>)
    requires acc.Some? ==> WellFormed(acc.value)
    requires NoJoins(es)
    ensures Constituents(JoinEach(acc, es)) == Constituents(acc) + Present(es)
    ensures JoinEach(acc, es).Some? ==> WellFormed(JoinEach(acc, es).value)
    ensures JoinEach(acc, es).None? <==> acc.None? && Present(es) == []
    decreases |es|
  {
    if es != [] {
      var init, last := es[..|es| - 1], es[|es| - 1];
      assert es == init + [last];
      assert NoJoins(init) by {
        forall i | 0 <= i < |init| && init[i].Some? ensures !init[i].value.Joined? {
          assert init[i] == es[i];
        }
      }
      assert last.Some? ==> !last.value.Joined? by {
        assert last == es[|es| - 1];
      }
      JoinEachConstituents(acc, init);
      JoinEachStep(acc, JoinEach(acc, init), init, last);
      JoinEachSnoc(acc, init, last);
      PresentConcat(init, [last]);
    }
  }

  /**
   * One more join after a run of them: what the run collected (`before`),
   * followed by the new error.
   */
  lemma JoinEachStep(acc: Option<Error>, before: Option<Error>, init: seq<Option<Error>>, last: Option<Error>)
    requires last.Some? ==> !last.value.Joined?
    requires Constituents(before) == Constituents(acc) + Present(init)
    requires before.Some? ==> WellFormed(before.value)
    requires before.None? <==> acc.None? && Present(init) == []
    ensures var after := JoinErrors([before, last]);
      && Constituents(after) == Constituents(acc) + (Present(init) + Present([last]))
      && (after.Some? ==> WellFormed(after.value))
      && (after.None? <==> acc.None? && Present(init) + Present([last]) == [])
  {
    JoinOne(before, last);
    assert Constituents(before) + Present([last]) == Constituents(acc) + (Present(init) + Present([last]));
  }

  /** One join of an accumulator with an error that is not a join, or with nil. */
  lemma JoinOne(acc: Option<Error>, e: Option<Error>)
    requires acc.Some? ==> WellFormed(acc.value)
    requires e.Some? ==> !e.value.Joined?
    ensures Constituents(JoinErrors([acc, e])) == Constituents(acc) + Present([e])
    ensures JoinErrors([acc, e]).Some? ==> WellFormed(JoinErrors([acc, e]).value)
    ensures JoinErrors([acc, e]).None? <==> acc.None? && e.None?
  {
    var nil: seq<Option<Error>> := [None];
    assert [e][1..] == [];
    if e.Some? {
      assert Present([e]) == [e.value];
      JoinAppends(acc, e.value);
    } else {
      assert Present([e]) == Present(nil[1..]);
      JoinNil(acc);
    }
  }

  /**
   * The message of an accumulated error lists the messages of the non-nil
   * errors joined into it, one per line.
   */
  lemma JoinEachMessage(es: seq<Option<Error>>)
    requires NoJoins(es) && Present(es) != []
    ensures JoinEach(None, es).Some?
    ensures Message(JoinEach(None, es).value) == GoText.Join(MessagesOf(Present(es)), '\n')
  {
    JoinEachConstituents(None, es);
    var joined := JoinEach(None, es).value;
    assert Constituents(None) + Present(es) == Present(es);
    assert Leaves(joined) == Present(es);
    MessageLines(joined);
  }
}
