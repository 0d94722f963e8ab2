/**
 * The helpers of an invocation: whether a place (unit or cell) may serve the
 * request, tag-condition matching, the request listeners and their
 * notification, and the diagnostic text of a rejection.
 *
 * The metadata an invocation is built from (service, live, application, tag
 * matchers) is a value, `Context`; the listener list is the state of the
 * `Invocation` class. A listener callback is recorded as a `Notice` appended
 * to the invocation's log, in the order the callbacks happen.
 */
module Invocation {
  import opened Wrappers
  import GovernancePolicy

  /** How a place may be used: READ_WRITE, READ, or any other (inaccessible) mode. */
  datatype AccessMode = READ_WRITE | READ | NONE

  /** A unit or a cell, with its access mode (possibly null). */
  datatype Place = Place(accessMode: Option<AccessMode>)

  datatype ServiceMetadata = ServiceMetadata(write: bool, serviceName: Option<string>, serviceGroup: Option<string>,
                                             path: Option<string>)

  datatype LiveMetadata = LiveMetadata(liveSpace: Option<GovernancePolicy.LiveSpace>, unitRuleId: Option<string>,
                                       variable: Option<string>)

  datatype Location = Location(unit: Option<string>, cell: Option<string>)

  datatype Application = Application(name: Option<string>, location: Location)

  datatype TagCondition = TagCondition(tagType: string, key: string, values: seq<string>)

  /** A tag matcher: whether a condition holds for a request. */
  type TagMatcher<!T> = (TagCondition, T) -> bool

  /** What an invocation was built with: its request (possibly null), the parsed metadata and the context's tag matchers. */
  datatype Context<!T> = Context(request: Option<T>, serviceMetadata: ServiceMetadata, liveMetadata: LiveMetadata,
                                 application: Application, tagMatchers: Option<map<string, TagMatcher<T>>>)

  // ----- isAccessible -----

  /**
   * isAccessible(place): a null place is not accessible; a place whose mode is
   * null or READ_WRITE is; a READ place is iff the request is not a write; any
   * other mode is not.
   */
  function IsAccessible<T>(ctx: Context<T>, place: Option<Place>): (r: bool)
    ensures place.None? ==> !r
    ensures place.Some? && place.value.accessMode in {None, Some(READ_WRITE)} ==> r
    ensures place.Some? && place.value.accessMode == Some(READ) ==> (r <==> !ctx.serviceMetadata.write)
    ensures place.Some? && place.value.accessMode == Some(NONE) ==> !r
  {
    if place.None? then false
    else
      var accessMode := place.value.accessMode.GetOr(READ_WRITE);
      match accessMode
      case READ_WRITE => true
      case READ => !ctx.serviceMetadata.write
      case NONE => false
  }

  /** A place a write may use, a read may use too; the write flag is the only thing that matters besides the place. */
  lemma AccessibleToWriteIsAccessibleToRead<T>(ctx: Context<T>, place: Option<Place>)
    requires ctx.serviceMetadata.write
    requires IsAccessible(ctx, place)
    ensures IsAccessible(ctx.(serviceMetadata := ctx.serviceMetadata.(write := false)), place)
  {
  }

  // ----- match -----

  function LowerChar(c: char): char {
    if 'A' <= c <= 'Z' then (c as int + 32) as char else c
  }

  /** String.toLowerCase, restricted to the ASCII letters. */
  function ToLower(s: string): string {
    seq(|s|, i requires 0 <= i < |s| => LowerChar(s[i]))
  }

  predicate HasUpper(s: string) {
    exists i :: 0 <= i < |s| && 'A' <= s[i] <= 'Z'
  }

  /** Lower-casing leaves no upper-case letter and changes nothing a second time. */
  lemma ToLowerNormalizes(s: string)
    ensures !HasUpper(ToLower(s))
    ensures ToLower(ToLower(s)) == ToLower(s)
    ensures |ToLower(s)| == |s|
  {
    var t := ToLower(s);
    forall i | 0 <= i < |t|
      ensures !('A' <= t[i] <= 'Z')
    {
    }
    assert ToLower(t) == t;
  }

  /**
   * match(condition): a null condition always matches; otherwise a null request,
   * a null matcher map or no matcher under the lower-cased condition type means
   * no match; otherwise the matcher decides.
   */
  function Match<T>(ctx: Context<T>, condition: Option<TagCondition>): (r: bool)
    ensures condition.None? ==> r
    ensures condition.Some? && ctx.request.None? ==> !r
    ensures condition.Some? && ctx.tagMatchers.None? ==> !r
    ensures condition.Some? && ctx.tagMatchers.Some? && ToLower(condition.value.tagType) !in ctx.tagMatchers.value ==> !r
    ensures condition.Some? && ctx.request.Some? && ctx.tagMatchers.Some?
            && ToLower(condition.value.tagType) in ctx.tagMatchers.value ==>
              (r <==> ctx.tagMatchers.value[ToLower(condition.value.tagType)](condition.value, ctx.request.value))
  {
    if condition.None? then true
    else if ctx.request.None? then false
    else
      var matchers := ctx.tagMatchers;
      var matcher := if matchers.None? then None
                     else var key := ToLower(condition.value.tagType);
                          if key in matchers.value then Some(matchers.value[key]) else None;
      matcher.Some? && matcher.value(condition.value, ctx.request.value)
  }

  /** A matcher registered under a key with an upper-case letter is never consulted: the lookup key is lower-cased. */
  lemma UpperCaseMatcherUnreachable<T>(ctx: Context<T>, condition: TagCondition, key: string)
    requires HasUpper(key)
    ensures ToLower(condition.tagType) != key
  {
    ToLowerNormalizes(condition.tagType);
  }

  /**
   * Conditions whose types differ only in letter case consult the same matcher:
   * the one registered under the lower-cased type, which then decides.
   */
  lemma MatchIgnoresTypeCase<T>(ctx: Context<T>, condition: TagCondition, tagType: string)
    requires ToLower(tagType) == ToLower(condition.tagType)
    ensures var other := condition.(tagType := tagType);
            var key := ToLower(condition.tagType);
            && Match(ctx, Some(condition)) == (ctx.request.Some? && ctx.tagMatchers.Some? && key in ctx.tagMatchers.value
                                               && ctx.tagMatchers.value[key](condition, ctx.request.value))
            && Match(ctx, Some(other)) == (ctx.request.Some? && ctx.tagMatchers.Some? && key in ctx.tagMatchers.value
                                           && ctx.tagMatchers.value[key](other, ctx.request.value))
  {
  }

  // ----- getError -----

  /** StringBuilder.append of a possibly-null string: a null is written as "null". */
  function Text(s: Option<string>): string {
    if s.None? then "null" else s.value
  }

  /** The named values a diagnostic lists, in order. */
  function ErrorFields<T>(ctx: Context<T>, unit: Option<string>, cell: Option<string>): seq<(string, Option<string>)> {
    var liveSpace := ctx.liveMetadata.liveSpace;
    [("liveSpaceId", if liveSpace.None? then None else Some(liveSpace.value.id)),
     ("ruleId", ctx.liveMetadata.unitRuleId),
     ("unit", unit),
     ("cell", cell),
     ("application", ctx.application.name),
     ("service", ctx.serviceMetadata.serviceName),
     ("group", ctx.serviceMetadata.serviceGroup),
     ("path", ctx.serviceMetadata.path),
     ("variable", ctx.liveMetadata.variable)]
  }

  /**
   * The fields appended after `head` as name=value pairs separated by ", ",
   * a null value written as "null".
   */
  function Render(head: string, fields: seq<(string, Option<string>)>): string
    decreases |fields|
  {
    if |fields| == 0 then head
    else if |fields| == 1 then head + fields[0].0 + "=" + Text(fields[0].1)
    else Render(head, fields[..|fields| - 1]) + ", " + fields[|fields| - 1].0 + "=" + Text(fields[|fields| - 1].1)
  }

  lemma RenderStep(head: string, fields: seq<(string, Option<string>)>, k: nat)
    requires 1 <= k < |fields|
    ensures Render(head, fields[..k + 1]) == Render(head, fields[..k]) + ", " + fields[k].0 + "=" + Text(fields[k].1)
  {
    assert fields[..k + 1][..k] == fields[..k];
  }

  /** getError(message, unit, cell): the StringBuilder appends of the diagnostic, literal by literal. */
  function GetError<T>(ctx: Context<T>, message: string, unit: Option<string>, cell: Option<string>): string {
    var liveSpace := ctx.liveMetadata.liveSpace;
    message + ". " + "liveSpaceId" + "=" + Text(if liveSpace.None? then None else Some(liveSpace.value.id))
      + ", " + "ruleId" + "=" + Text(ctx.liveMetadata.unitRuleId)
      + ", " + "unit" + "=" + Text(unit)
      + ", " + "cell" + "=" + Text(cell)
      + ", " + "application" + "=" + Text(ctx.application.name)
      + ", " + "service" + "=" + Text(ctx.serviceMetadata.serviceName)
      + ", " + "group" + "=" + Text(ctx.serviceMetadata.serviceGroup)
      + ", " + "path" + "=" + Text(ctx.serviceMetadata.path)
      + ", " + "variable" + "=" + Text(ctx.liveMetadata.variable) + "\n"
  }

  /**
   * The diagnostic is the message, then ". " and the fields of ErrorFields as
   * name=value pairs in that order, then a line break.
   */
  lemma GetErrorLayout<T>(ctx: Context<T>, message: string, unit: Option<string>, cell: Option<string>)
    ensures GetError(ctx, message, unit, cell) == Render(message + ". ", ErrorFields(ctx, unit, cell)) + "\n"
  {
    RenderNine(message + ". ", ErrorFields(ctx, unit, cell));
  }

  /** A rendering of nine fields, written out pair by pair. */
  lemma RenderNine(head: string, f: seq<(string, Option<string>)>)
    requires |f| == 9
    ensures Render(head, f)
         == head + f[0].0 + "=" + Text(f[0].1) + ", " + f[1].0 + "=" + Text(f[1].1)
              + ", " + f[2].0 + "=" + Text(f[2].1) + ", " + f[3].0 + "=" + Text(f[3].1)
              + ", " + f[4].0 + "=" + Text(f[4].1) + ", " + f[5].0 + "=" + Text(f[5].1)
              + ", " + f[6].0 + "=" + Text(f[6].1) + ", " + f[7].0 + "=" + Text(f[7].1)
              + ", " + f[8].0 + "=" + Text(f[8].1)
  {
    assert f[..1] == [f[0]];
    RenderStep(head, f, 1);
    RenderStep(head, f, 2);
    RenderStep(head, f, 3);
    RenderStep(head, f, 4);
    RenderStep(head, f, 5);
    RenderStep(head, f, 6);
    RenderStep(head, f, 7);
    RenderStep(head, f, 8);
    assert f[..9] == f;
  }

  /** The diagnostic starts with the message and ends with a line break. */
  lemma GetErrorBounds<T>(ctx: Context<T>, message: string, unit: Option<string>, cell: Option<string>)
    ensures var r := GetError(ctx, message, unit, cell);
            |r| > |message| && r[..|message|] == message && r[|r| - 1] == '\n'
  {
    GetErrorLayout(ctx, message, unit, cell);
    RenderedBounds(message, ErrorFields(ctx, unit, cell));
  }

  /** A rendering headed by the message and ". ", then a line break, starts with the message and ends with the break. */
  lemma RenderedBounds(message: string, fields: seq<(string, Option<string>)>)
    ensures var r := Render(message + ". ", fields) + "\n";
            |r| > |message| && r[..|message|] == message && r[|r| - 1] == '\n'
  {
    var head := message + ". ";
    var rendered := Render(head, fields);
    RenderExtends(head, fields);
    assert rendered[..|message|] == rendered[..|head|][..|message|] == head[..|message|] == message;
    assert (rendered + "\n")[..|message|] == rendered[..|message|];
  }

  /** A rendering starts with its head. */
  lemma {:induction false} RenderExtends(head: string, fields: seq<(string, Option<string>)>)
    ensures |Render(head, fields)| >= |head| && Render(head, fields)[..|head|] == head
    decreases |fields|
  {
    if |fields| > 1 {
      RenderExtends(head, fields[..|fields| - 1]);
    }
  }

  /** getError(message, unit): the same text with a null cell. */
  function GetErrorForUnit<T>(ctx: Context<T>, message: string, unit: Option<string>): (r: string)
    ensures r == Render(message + ". ", ErrorFields(ctx, unit, None)) + "\n"
    ensures r == GetErrorAt(ctx, message, Location(unit, None))
  {
    GetErrorLayout(ctx, message, unit, None);
    GetError(ctx, message, unit, None)
  }

  /** getError(message, location): the unit and cell of the location. */
  function GetErrorAt<T>(ctx: Context<T>, message: string, location: Location): (r: string)
    ensures r == Render(message + ". ", ErrorFields(ctx, location.unit, location.cell)) + "\n"
  {
    GetErrorLayout(ctx, message, location.unit, location.cell);
    GetError(ctx, message, location.unit, location.cell)
  }

  /** getError(message): the unit and cell of the application's own location. */
  function GetErrorHere<T>(ctx: Context<T>, message: string): (r: string)
    ensures r == Render(message + ". ", ErrorFields(ctx, ctx.application.location.unit,
                                                          ctx.application.location.cell)) + "\n"
  {
    GetErrorAt(ctx, message, ctx.application.location)
  }

  // ----- listeners -----

  datatype RequestListener = RequestListener(id: nat)

  /** A terminal outcome of a request: a response (by identity) or an error. */
  datatype Outcome<T> = Succeeded(request: T, response: nat) | Failed(request: T, error: string)

  /** One listener callback: which listener was told which outcome. */
  datatype Notice<T> = Notice(listener: RequestListener, outcome: Outcome<T>)

  /** Telling each listener the outcome: one callback per listener, in listener order. */
  function Fanout<T>(listeners: seq<RequestListener>, outcome: Outcome<T>): (r: seq<Notice<T>>)
    ensures |r| == |listeners|
    ensures forall i :: 0 <= i < |r| ==> r[i] == Notice(listeners[i], outcome)
    decreases |listeners|
  {
    if |listeners| == 0 then []
    else Fanout(listeners[..|listeners| - 1], outcome) + [Notice(listeners[|listeners| - 1], outcome)]
  }

  class Invocation<!T> {
    const context: Context<T>
    /** The registered listeners; null until the first one is added. */
    var listeners: Option<seq<RequestListener>>
    /** Every listener callback made so far, in order. */
    var notices: seq<Notice<T>>

    constructor (context: Context<T>)
      ensures this.context == context && listeners.None? && notices == []
    {
      this.context := context;
      listeners := None;
      notices := [];
    }

    /** The listeners in registration order; none when the list was never created. */
    function Registered(): seq<RequestListener>
      reads this
    {
      if listeners.None? then [] else listeners.value
    }

    /** addListener(listener): a null listener is ignored; otherwise the list is created if needed and the listener appended. */
    method AddListener(listener: Option<RequestListener>)
      modifies this
      ensures listener.None? ==> listeners == old(listeners)
      ensures listener.Some? ==> listeners == Some(old(Registered()) + [listener.value])
      ensures notices == old(notices)
    {
      if listener.Some? {
        if listeners.None? {
          listeners := Some([]);
        }
        listeners := Some(listeners.value + [listener.value]);
      }
    }

    /** Calls every registered listener once with the outcome, in registration order. */
    method Notify(outcome: Outcome<T>)
      modifies this
      ensures listeners == old(listeners)
      ensures notices == old(notices) + Fanout(old(Registered()), outcome)
    {
      if listeners.Some? {
        var all := listeners.value;
        for i := 0 to |all|
          invariant listeners == old(listeners)
          invariant notices == old(notices) + Fanout(all[..i], outcome)
        {
          assert all[..i + 1][..i] == all[..i];
          notices := notices + [Notice(all[i], outcome)];
        }
        assert all[..|all|] == all;
      }
    }

    /** onSuccess(request, response): every registered listener is told of the success. */
    method OnSuccess(request: T, response: nat)
      modifies this
      ensures listeners == old(listeners)
      ensures notices == old(notices) + Fanout(old(Registered()), Succeeded(request, response))
    {
      Notify(Succeeded(request, response));
    }

    /** onFailure(request, error): every registered listener is told of the failure. */
    method OnFailure(request: T, error: string)
      modifies this
      ensures listeners == old(listeners)
      ensures notices == old(notices) + Fanout(old(Registered()), Failed(request, error))
    {
      Notify(Failed(request, error));
    }
  }
}
