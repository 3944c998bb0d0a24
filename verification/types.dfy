/** The vocabulary of the doorbell daemon: what comes in, what goes out, and the
    timing rules in between (porchlightd/src/core/types.h, events.h, actions.h,
    policy.h). Steady time is an integer; every duration is a natural number in
    the same unit. */
module Types {

  datatype Option<+T> = None | Some(value: T)

  type EventId = string
  type PeerId = string
  type Time = int

  datatype Kind = Motion | Ring
  datatype Verdict = Person | NoPerson | Unknown
  datatype AlertOutcome = Delivered | Rejected | Failed
  datatype LedPattern = RingLed | Live | Recording | Fault | Offline | Idle | Off

  /** An alert as the queue holds it and as SendAlert carries it. */
  datatype Alert = Alert(id: EventId, kind: Kind, at: Time, faces: string)

  /** A clip as the uploader is told about it. */
  datatype Clip = Clip(id: EventId, path: string, kind: Kind, triggeredAt: Time,
                       duration: nat, cutShort: bool)

  datatype Event =
    | ButtonPressed
    | MotionDetected
    | ViewerRequested(peer: PeerId)
    | CallEnded(peer: PeerId, reason: string)
    | RecordingFinished(id: EventId, path: string, ok: bool, duration: nat, bytes: nat)
    | DetectionResult(id: EventId, verdict: Verdict, faces: string)
    | UploadFinished(id: EventId, ok: bool)
    | AlertResult(id: EventId, kind: Kind, outcome: AlertOutcome)
    | ServerOnline
    | ServerOffline(permanent: bool)
    | Tick
    | Shutdown

  datatype Action =
    | SetLed(pattern: LedPattern)
    | PlayChime
    | SendAlert(alert: Alert)
    | StartRecording(id: EventId, seconds: nat, detectFor: nat, ringFaces: nat)
    | StopRecording
    | UploadClip(clip: Clip)
    | DiscardClip(id: EventId, path: string)
    | StartCall(peer: PeerId)
    | StopCall

  datatype Policy = Policy(
    clip: nat,
    minClip: nat,
    motionCooldown: nat,
    pressDedupWindow: nat,
    ringLed: nat,
    personDetection: bool,
    detectWindow: nat,
    detectGrace: nat,
    noPersonCooldown: nat,
    faceSearch: nat,
    ringFaceWait: nat,
    alertMaxAge: nat,
    maxQueuedAlerts: nat,
    retryBackoffInitial: nat,
    retryBackoffMax: nat,
    spoolMaxBytes: nat)

  /** What config.cpp refuses to start without. */
  predicate ValidPolicy(p: Policy) {
    && p.clip > 0 && p.alertMaxAge > 0
    && p.retryBackoffInitial > 0 && p.retryBackoffMax >= p.retryBackoffInitial
    && p.maxQueuedAlerts > 0 && p.spoolMaxBytes > 0
    && p.minClip <= p.clip
    && p.detectWindow > 0 && p.detectGrace > 0 && p.noPersonCooldown > 0
    && p.detectWindow < p.clip
  }

  function Min(a: int, b: int): int { if a < b then a else b }

  function Max(a: int, b: int): int { if a < b then b else a }

  /** now lies strictly before the instant, when there is one. */
  predicate Before(now: Time, instant: Option<Time>) {
    instant.Some? && now < instant.value
  }

  function Earlier(a: Option<Time>, b: Option<Time>): Option<Time> {
    if a.None? then b
    else if b.None? then a
    else Some(Min(a.value, b.value))
  }

  lemma Regroup<T>(a: seq<T>, b: seq<T>, c: seq<T>)
    ensures (a + b) + c == a + (b + c)
  {}
}
