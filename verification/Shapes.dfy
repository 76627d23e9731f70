/** The shapes of ids, digests and revisions, written as patterns, and what reading an operation takes. */
module Shapes {
  import opened Options
  import opened Judges
  import opened Text

  /** What may stand where a pattern has this character; any other character stands for itself. */
  function Allowed(p: char): string {
    if p == '#' then "0123456789abcdefABCDEF"
    else if p == '@' then "0123456789abcdef"
    else if p == '!' then "12345"
    else if p == '?' then "89abAB"
    else [p]
  }

  predicate Fits(s: string, pattern: string) {
    |s| == |pattern| && forall i :: 0 <= i < |s| ==> s[i] in Allowed(pattern[i])
  }

  function Repeated(c: char, n: nat): string { seq(n, _ => c) }

  lemma HexMeans(c: char)
    ensures IsHex(c) <==> c in "0123456789abcdefABCDEF"
  {
  }

  lemma LowerHexMeans(c: char)
    ensures ('0' <= c <= '9' || 'a' <= c <= 'f') <==> c in "0123456789abcdef"
  {
  }

  lemma DigitsMean(c: char)
    ensures '1' <= c <= '5' <==> c in "12345"
    ensures c in ['8', '9', 'a', 'b', 'A', 'B'] <==> c in "89abAB"
  {
  }

  /** Where this is in a UUID's pattern. */
  function PatternAt(i: nat): char {
    if i == 8 || i == 13 || i == 18 || i == 23 then '-' else if i == 14 then '!' else if i == 19 then '?' else '#'
  }

  const UUID := "########-####-!###-?###-############"

  lemma UuidPattern()
    ensures |UUID| == 36 && forall i: nat :: i < 36 ==> UUID[i] == PatternAt(i)
  {
  }

  lemma AllowedAt(s: string, i: nat)
    requires i < |s| == 36
    ensures s[i] in Allowed(PatternAt(i)) <==>
            if i == 8 || i == 13 || i == 18 || i == 23 then s[i] == '-'
            else if i == 14 then '1' <= s[i] <= '5'
            else if i == 19 then s[i] in ['8', '9', 'a', 'b', 'A', 'B']
            else IsHex(s[i])
  {
    HexMeans(s[i]);
    DigitsMean(s[i]);
  }

  /** An operation's id is a UUID of version 1 to 5, in either case. */
  lemma UuidMeans(s: string)
    ensures IsUuid(s) <==> Fits(s, UUID)
  {
    UuidPattern();
    if |s| == 36 {
      forall i: nat | i < 36 ensures s[i] in Allowed(UUID[i]) <==> s[i] in Allowed(PatternAt(i)) {
      }
      if IsUuid(s) {
        forall i: nat | i < 36 ensures s[i] in Allowed(UUID[i]) { AllowedAt(s, i); }
      }
      if Fits(s, UUID) { FitsIsUuid(s); }
    }
  }

  lemma FitsIsUuid(s: string)
    requires |s| == 36 && forall i: nat :: i < 36 ==> s[i] in Allowed(PatternAt(i))
    ensures IsUuid(s)
  {
    AllowedAt(s, 8);
    AllowedAt(s, 13);
    AllowedAt(s, 18);
    AllowedAt(s, 23);
    AllowedAt(s, 14);
    AllowedAt(s, 19);
    assert s[14] in "12345" && s[19] in "89abAB";
    forall i: nat | i < 36 && i != 8 && i != 13 && i != 18 && i != 23 ensures IsHex(s[i]) { AllowedAt(s, i); }
  }

  lemma Sha256Means(s: string)
    ensures IsSha256(s) <==> Fits(s, "sha256:" + Repeated('@', 64))
  {
    var pattern := "sha256:" + Repeated('@', 64);
    assert |pattern| == 71 && forall i: nat :: 7 <= i < 71 ==> pattern[i] == '@';
    if |s| == 71 {
      assert s[..7] == "sha256:" <==> forall i: nat :: i < 7 ==> s[i] in Allowed(pattern[i]);
      forall i: nat | 7 <= i < 71
        ensures s[i] in Allowed(pattern[i]) <==> '0' <= s[i] <= '9' || 'a' <= s[i] <= 'f'
      {
        LowerHexMeans(s[i]);
      }
    }
  }

  lemma GitRevisionMeans(s: string)
    ensures IsGitRevision(s) <==> Fits(s, Repeated('@', 40))
  {
    if |s| == 40 {
      forall i: nat | i < 40
        ensures s[i] in Allowed(Repeated('@', 40)[i]) <==> '0' <= s[i] <= '9' || 'a' <= s[i] <= 'f'
      {
        LowerHexMeans(s[i]);
      }
    }
  }

  // ------------------------------------------------------------------------------------------------ an operation

  /** What an operation is that can be written on a container and read back. */
  predicate Proper(op: Operation, exactInstant: string -> bool) {
    && Fits(op.id, UUID) && op.acceptedAt != "" && exactInstant(op.acceptedAt)
    && op.target.image != "" && op.target.launchSpecVersion != "" && op.target.configRevision != ""
  }

  predicate HasLabel(labels: map<string, string>, name: string, value: string) {
    name in labels && labels[name] == value
  }

  /** The labels carry it, each part under a name of its own. */
  predicate Carries(labels: map<string, string>, op: Operation) {
    && HasLabel(labels, OPERATION_ID, op.id)
    && HasLabel(labels, OPERATION_ACTION, ActionText(op.action))
    && HasLabel(labels, ACCEPTED_AT, op.acceptedAt)
    && HasLabel(labels, IMAGE_REFERENCE, op.target.image)
    && HasLabel(labels, SPEC_VERSION, op.target.launchSpecVersion)
    && HasLabel(labels, CONFIG_REVISION, op.target.configRevision)
  }

  lemma ActionMeans(s: string, action: Action)
    ensures ActionText(action) == if action.StartAction? then "start" else "restart"
    ensures ReadAction(s) == Some(action) <==> s == ActionText(action)
  {
  }

  lemma CarriedIsRead(labels: map<string, string>, op: Operation, exactInstant: string -> bool)
    requires Proper(op, exactInstant) && Carries(labels, op) && ReadAction(ActionText(op.action)) == Some(op.action)
    requires IsUuid(op.id) && ActionText(op.action) != ""
    ensures ReadOperation(labels, exactInstant) == Some(op)
  {
  }

  lemma ReadIsCarried(labels: map<string, string>, op: Operation, exactInstant: string -> bool)
    requires ReadOperation(labels, exactInstant) == Some(op)
    ensures Carries(labels, op) && Proper(op, exactInstant)
  {
    ActionMeans(labels[OPERATION_ACTION], op.action);
    UuidMeans(op.id);
  }

  /** Exactly the proper operations that the labels carry are read from them. */
  lemma ReadExactly(labels: map<string, string>, op: Operation, exactInstant: string -> bool)
    ensures ReadOperation(labels, exactInstant) == Some(op) <==> Proper(op, exactInstant) && Carries(labels, op)
  {
    if ReadOperation(labels, exactInstant) == Some(op) { ReadIsCarried(labels, op, exactInstant); }
    if Proper(op, exactInstant) && Carries(labels, op) {
      UuidMeans(op.id);
      ActionMeans(ActionText(op.action), op.action);
      CarriedIsRead(labels, op, exactInstant);
    }
  }

  /** An id of that shape: ones, an eight and dashes. */
  function SomeId(): string {
    seq(36, i => if i == 8 || i == 13 || i == 18 || i == 23 then '-' else if i == 19 then '8' else '1')
  }

  /** There are such operations, whatever the target and the moment. */
  lemma SomeAreProper(target: Target, at: string, exactInstant: string -> bool)
    requires at != "" && exactInstant(at)
    requires target.image != "" && target.launchSpecVersion != "" && target.configRevision != ""
    ensures Proper(Operation(SomeId(), StartAction, target, at), exactInstant)
  {
    assert IsUuid(SomeId());
    UuidMeans(SomeId());
  }
}
