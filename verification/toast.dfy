/**
 * Toast notifications: the provider's list of visible toasts, adding a toast
 * (with its auto-dismiss delay) and removing one, the border colour of each
 * kind, and the four builder helpers.
 */
module Toasts {
  import opened Wrappers
  import Seqs

  datatype ToastKind = Success | Error | Warning | Info

  datatype Toast = Toast(id: string, kind: ToastKind, title: string, message: Option<string>,
                         duration: Option<int>, action: Option<string>)

  /** A toast as callers hand it over: everything but the id, which the provider assigns. */
  datatype ToastInput = ToastInput(kind: ToastKind, title: string, message: Option<string>,
                                   duration: Option<int>, action: Option<string>)

  /** `Partial<Toast>`: the fields a builder's caller may override. */
  datatype ToastOptions = ToastOptions(kind: Option<ToastKind>, title: Option<string>, message: Option<string>,
                                       duration: Option<int>, action: Option<string>)

  const NoOptions := ToastOptions(None, None, None, None, None)

  /** `{...toast, id}`. */
  function WithId(t: ToastInput, id: string): (r: Toast)
    ensures r.id == id && r.kind == t.kind && r.title == t.title && r.message == t.message
    ensures r.duration == t.duration && r.action == t.action
  {
    Toast(id, t.kind, t.title, t.message, t.duration, t.action)
  }

  /** `toast.duration ?? 5000`: only a missing duration falls back, so 0 is kept. */
  function EffectiveDuration(t: ToastInput): int
  {
    t.duration.GetOr(5000)
  }

  /** `toasts.filter(t => t.id !== id)`. */
  function WithoutToast(toasts: seq<Toast>, id: string): seq<Toast>
  {
    Seqs.Filter(toasts, (t: Toast) => t.id != id)
  }

  function BorderColor(kind: ToastKind): string
  {
    match kind
    case Success => "border-l-green-500"
    case Error => "border-l-red-500"
    case Warning => "border-l-yellow-500"
    case Info => "border-l-blue-500"
  }

  /** `{type, title, message, ...options}`: a field present in the options wins. */
  function Build(kind: ToastKind, title: string, message: Option<string>, options: ToastOptions): ToastInput
  {
    ToastInput(
      options.kind.GetOr(kind),
      options.title.GetOr(title),
      if options.message.Some? then options.message else message,
      options.duration,
      options.action)
  }

  function SuccessToast(title: string, message: Option<string>, options: ToastOptions): ToastInput { Build(Success, title, message, options) }
  function ErrorToast(title: string, message: Option<string>, options: ToastOptions): ToastInput { Build(Error, title, message, options) }
  function WarningToast(title: string, message: Option<string>, options: ToastOptions): ToastInput { Build(Warning, title, message, options) }
  function InfoToast(title: string, message: Option<string>, options: ToastOptions): ToastInput { Build(Info, title, message, options) }

  class ToastProvider {
    var toasts: seq<Toast>

    constructor()
      ensures toasts == []
    {
      toasts := [];
    }

    /**
     * Appends the toast under the given id (the provider draws it at random)
     * and returns the delay after which a timer removes it again, if any: the
     * effective duration when it is positive, none otherwise.
     */
    method AddToast(t: ToastInput, id: string) returns (removeAfter: Option<int>)
      modifies this
      ensures toasts == old(toasts) + [WithId(t, id)]
      ensures removeAfter.Some? <==> EffectiveDuration(t) > 0
      ensures removeAfter.Some? ==> removeAfter.value == EffectiveDuration(t)
    {
      toasts := toasts + [WithId(t, id)];
      var duration := EffectiveDuration(t);
      removeAfter := if duration > 0 then Some(duration) else None;
    }

    /** Dismissal, by the close button or by the timer. */
    method RemoveToast(id: string)
      modifies this
      ensures toasts == WithoutToast(old(toasts), id)
    {
      toasts := WithoutToast(toasts, id);
    }
  }

  /** Removal drops every toast with that id and keeps the rest in order. */
  lemma WithoutToastExact(toasts: seq<Toast>, id: string)
    ensures forall t :: t in WithoutToast(toasts, id) <==> t in toasts && t.id != id
    ensures forall t :: multiset(WithoutToast(toasts, id))[t] == if t.id != id then multiset(toasts)[t] else 0
    ensures Seqs.Subseq(WithoutToast(toasts, id), toasts)
    ensures WithoutToast(WithoutToast(toasts, id), id) == WithoutToast(toasts, id)
  {
    forall t
      ensures multiset(WithoutToast(toasts, id))[t] == if t.id != id then multiset(toasts)[t] else 0
    {
      Seqs.FilterMultiplicity(toasts, (x: Toast) => x.id != id, t);
    }
    Seqs.FilterMembership(toasts, (t: Toast) => t.id != id);
    Seqs.FilterIsSubseq(toasts, (t: Toast) => t.id != id);
    Seqs.FilterIdempotent(toasts, (t: Toast) => t.id != id);
  }

  /** Removing an id no toast has changes nothing; a timer firing after a manual close is harmless. */
  lemma RemoveAbsentIsNoop(toasts: seq<Toast>, id: string)
    requires forall i :: 0 <= i < |toasts| ==> toasts[i].id != id
    ensures WithoutToast(toasts, id) == toasts
  {
    Seqs.FilterKeepsAll(toasts, (t: Toast) => t.id != id);
  }

  /** Adding a toast under a fresh id and then removing that id restores the list. */
  lemma AddThenRemove(toasts: seq<Toast>, t: ToastInput, id: string)
    requires forall i :: 0 <= i < |toasts| ==> toasts[i].id != id
    ensures WithoutToast(toasts + [WithId(t, id)], id) == toasts
  {
    Seqs.FilterAppend(toasts, [WithId(t, id)], (x: Toast) => x.id != id);
    RemoveAbsentIsNoop(toasts, id);
    assert [WithId(t, id)][1..] == [];
  }

  /** Only an explicit non-positive duration keeps a toast up until it is closed. */
  lemma DurationDefault(t: ToastInput)
    ensures t.duration.None? ==> EffectiveDuration(t) == 5000
    ensures EffectiveDuration(t) <= 0 <==> t.duration.Some? && t.duration.value <= 0
  {
  }

  /** Each kind has its own border colour. */
  lemma BorderColorsDistinct(a: ToastKind, b: ToastKind)
    ensures BorderColor(a) == BorderColor(b) <==> a == b
  {
  }

  /**
   * Each builder produces its own kind with the given title and message
   * unless the options override them; the options' other fields pass through.
   */
  lemma BuildersTagKind(title: string, message: Option<string>, options: ToastOptions)
    ensures options.kind.None? ==>
      SuccessToast(title, message, options).kind == Success && ErrorToast(title, message, options).kind == Error &&
      WarningToast(title, message, options).kind == Warning && InfoToast(title, message, options).kind == Info
    ensures options.kind.Some? ==> SuccessToast(title, message, options).kind == options.kind.value
    ensures options.title.None? ==> SuccessToast(title, message, options).title == title
    ensures options.message.None? ==> SuccessToast(title, message, options).message == message
    ensures SuccessToast(title, message, options).duration == options.duration
    ensures Build(Info, title, message, NoOptions) == ToastInput(Info, title, message, None, None)
  {
  }
}
