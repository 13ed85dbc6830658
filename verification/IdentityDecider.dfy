/** The identity deciders (core/src/identity/identity_decider.cpp) and the identity worker's failure path. */
module IdentityDecider {
  import opened Types

  datatype Kind = Noop | Passthrough

  function Withheld(b: Box): Box
  {
    b.(identityKey := "", identityConfidence := 0.0, privacyAction := ANONYMIZE)
  }

  function Admitted(b: Box): Box
  {
    if b.identityKey == "" then b.(privacyAction := ANONYMIZE) else b
  }

  function DecidedBox(kind: Kind, b: Box): Box
  {
    match kind
    case Noop => Withheld(b)
    case Passthrough => Admitted(b)
  }

  /** What the worker publishes: the decider's answer, or after an exception everything withheld. */
  function DecidedTracks(kind: Kind, ok: bool, tracks: seq<Box>): (out: seq<Box>)
    ensures |out| == |tracks|
    ensures forall i :: 0 <= i < |tracks| ==> out[i] == if ok then DecidedBox(kind, tracks[i]) else Withheld(tracks[i])
  {
    seq(|tracks|, i requires 0 <= i < |tracks| => if ok then DecidedBox(kind, tracks[i]) else Withheld(tracks[i]))
  }

  /** A decider never lifts a box out of anonymization, and never shows one without an identity. */
  lemma DecidersOnlyTighten(kind: Kind, ok: bool, tracks: seq<Box>, i: nat)
    requires i < |tracks|
    ensures var b := DecidedTracks(kind, ok, tracks)[i];
      && (b.privacyAction != ANONYMIZE ==> b == tracks[i] && b.identityKey != "" && ok && kind == Passthrough)
      && (tracks[i].privacyAction == ANONYMIZE ==> b.privacyAction == ANONYMIZE)
      && (!ok || kind == Noop ==> b.privacyAction == ANONYMIZE && b.identityKey == "" && b.identityConfidence == 0.0)
      && b == tracks[i].(identityKey := b.identityKey, identityConfidence := b.identityConfidence, privacyAction := b.privacyAction)
  {
  }

  method Decide(kind: Kind, tracks: seq<Box>) returns (out: seq<Box>)
    ensures out == DecidedTracks(kind, true, tracks)
  {
    out := tracks;
    for i := 0 to |tracks|
      invariant |out| == |tracks|
      invariant forall k :: 0 <= k < i ==> out[k] == DecidedBox(kind, tracks[k])
      invariant forall k :: i <= k < |tracks| ==> out[k] == tracks[k]
    {
      if kind == Noop {
        out := out[i := out[i].(identityKey := "", identityConfidence := 0.0, privacyAction := ANONYMIZE)];
      } else if out[i].identityKey == "" {
        out := out[i := out[i].(privacyAction := ANONYMIZE)];
      }
    }
  }
}
