/**
 Storage keys are derived from ids and small integers, never from text a client sends:
 each names one object, and no key lies under two meetings.
 */
module StorageKeys {
  import opened Common
  import opened Text

  datatype Role = Normalized | Transcript | Diarization

  /** The three ids of a meeting, as they came from the database. */
  datatype Scope = Scope(tenant: string, client: string, meeting: string)

  const UUID_LENGTH := 36
  const MAX_ATTEMPT := 999

  predicate IsHex(c: char) { '0' <= c <= '9' || 'a' <= c <= 'f' || 'A' <= c <= 'F' }

  predicate IsUuid(s: string)
  {
    && |s| == UUID_LENGTH
    && forall i | 0 <= i < |s| :: if i == 8 || i == 13 || i == 18 || i == 23 then s[i] == '-' else IsHex(s[i])
  }

  function LowerChar(c: char): char { if 'A' <= c <= 'Z' then c + 32 as char else c }

  function Lower(s: string): (t: string)
    ensures |t| == |s|
  {
    seq(|s|, i requires 0 <= i < |s| => LowerChar(s[i]))
  }

  predicate ValidScope(s: Scope) { IsUuid(s.tenant) && IsUuid(s.client) && IsUuid(s.meeting) }

  /** Ids that differ only in letter case are the same id. */
  predicate SameScope(a: Scope, b: Scope)
  {
    Lower(a.tenant) == Lower(b.tenant) && Lower(a.client) == Lower(b.client) && Lower(a.meeting) == Lower(b.meeting)
  }

  const PREFIX_LENGTH := 116

  /** `meetingPrefix`: None stands for StorageKeyError. */
  function MeetingPrefix(s: Scope): (p: Option<string>)
    ensures p.Some? ==> |p.value| == PREFIX_LENGTH
  {
    if !ValidScope(s) then None
    else Some("t/" + Lower(s.tenant) + "/c/" + Lower(s.client) + "/m/" + Lower(s.meeting))
  }

  /** `originalMediaKey`. */
  function OriginalMediaKey(s: Scope): Option<string>
  {
    var p := MeetingPrefix(s);
    if p.None? then None else Some(p.value + "/original/source")
  }

  function RoleName(r: Role): string
  {
    match r case Normalized => "normalized" case Transcript => "transcript" case Diarization => "diarization"
  }

  function ObjectName(r: Role): string
  {
    match r case Normalized => "audio.wav" case Transcript => "transcript.ndjson.gz" case Diarization => "turns.ndjson.gz"
  }

  /** What follows the run in a key. */
  function Tail(attempt: nat, role: Role): string
  {
    ("/" + RoleName(role) + "/a") + (Decimal(attempt) + ("/" + ObjectName(role)))
  }

  /** `artifactKey`. */
  function ArtifactKey(s: Scope, run: string, attempt: int, role: Role): Option<string>
  {
    var p := MeetingPrefix(s);
    if p.None? || !IsUuid(run) || attempt < 0 || attempt > MAX_ATTEMPT then None
    else Some(p.value + ("/r/" + (Lower(run) + Tail(attempt, role))))
  }

  /** `keyBelongsToMeeting`; a malformed scope throws, which is None. */
  function KeyBelongsToMeeting(key: string, s: Scope): Option<bool>
  {
    var p := MeetingPrefix(s);
    if p.None? then None else Some(p.value + "/" <= key)
  }

  // ---- Injectivity ------------------------------------------------------------------------

  /** Two meetings share a prefix only when they are the same meeting of the same client and tenant. */
  lemma PrefixIsInjective(a: Scope, b: Scope)
    requires MeetingPrefix(a).Some? && MeetingPrefix(a) == MeetingPrefix(b)
    ensures SameScope(a, b)
  {
    var p := MeetingPrefix(a).value;
    assert p[2..38] == Lower(a.tenant) && p[2..38] == Lower(b.tenant);
    assert p[41..77] == Lower(a.client) && p[41..77] == Lower(b.client);
    assert p[80..116] == Lower(a.meeting) && p[80..116] == Lower(b.meeting);
  }

  /** No key lies under the prefixes of two meetings, so emptying one never touches another. */
  lemma PrefixesAreDisjoint(key: string, a: Scope, b: Scope)
    requires KeyBelongsToMeeting(key, a) == Some(true) && KeyBelongsToMeeting(key, b) == Some(true)
    ensures SameScope(a, b)
  {
    var (p, q) := (MeetingPrefix(a).value, MeetingPrefix(b).value);
    assert p == (p + "/")[..PREFIX_LENGTH] == key[..PREFIX_LENGTH];
    assert q == (q + "/")[..PREFIX_LENGTH] == key[..PREFIX_LENGTH];
    PrefixIsInjective(a, b);
  }

  lemma SandwichIsInjective(head: string, x: string, y: string, end: string)
    requires head + (x + end) == head + (y + end)
    ensures x == y
  {
    SameSplit(head, x + end, head, y + end);
    assert |x| == |x + end| - |end| == |y|;
    SameSplit(x, end, y, end);
  }

  lemma TailIsInjective(m: nat, r: Role, n: nat, q: Role)
    requires Tail(m, r) == Tail(n, q)
    ensures m == n && r == q
  {
    assert Tail(m, r)[1] == RoleName(r)[0] && Tail(n, q)[1] == RoleName(q)[0];
    assert r == q;
    SandwichIsInjective("/" + RoleName(r) + "/a", Decimal(m), Decimal(n), "/" + ObjectName(r));
    DecimalIsInjective(m, n);
  }

  /** One key, one artifact: meeting, run, attempt and role can all be read back. */
  lemma ArtifactKeyIsInjective(a: Scope, run: string, m: int, r: Role, b: Scope, other: string, n: int, q: Role)
    requires ArtifactKey(a, run, m, r).Some? && ArtifactKey(a, run, m, r) == ArtifactKey(b, other, n, q)
    ensures SameScope(a, b) && Lower(run) == Lower(other) && m == n && r == q
  {
    var (p, x) := (MeetingPrefix(a).value, MeetingPrefix(b).value);
    SameSplit(p, "/r/" + (Lower(run) + Tail(m, r)), x, "/r/" + (Lower(other) + Tail(n, q)));
    SameSplit("/r/", Lower(run) + Tail(m, r), "/r/", Lower(other) + Tail(n, q));
    SameSplit(Lower(run), Tail(m, r), Lower(other), Tail(n, q));
    PrefixIsInjective(a, b);
    TailIsInjective(m, r, n, q);
  }

  /** Every key of a meeting lies under that meeting's prefix and no other's, and the original is no artifact. */
  lemma KeysBelongToTheirMeeting(a: Scope, run: string, m: int, r: Role, b: Scope)
    requires ArtifactKey(a, run, m, r).Some? && ValidScope(b)
    ensures OriginalMediaKey(a).Some? && OriginalMediaKey(a) != ArtifactKey(a, run, m, r)
    ensures KeyBelongsToMeeting(ArtifactKey(a, run, m, r).value, b) == Some(SameScope(a, b))
    ensures KeyBelongsToMeeting(OriginalMediaKey(a).value, b) == Some(SameScope(a, b))
  {
    var (artifact, original) := (ArtifactKey(a, run, m, r).value, OriginalMediaKey(a).value);
    var p := MeetingPrefix(a).value + "/";
    assert original[PREFIX_LENGTH + 1] == 'o' && artifact[PREFIX_LENGTH + 1] == 'r';
    assert p == artifact[..PREFIX_LENGTH + 1] && p == original[..PREFIX_LENGTH + 1];
    if !SameScope(a, b) {
      if KeyBelongsToMeeting(artifact, b) == Some(true) { PrefixesAreDisjoint(artifact, a, b); }
      if KeyBelongsToMeeting(original, b) == Some(true) { PrefixesAreDisjoint(original, a, b); }
    }
  }

  /** The keys of lower-case ids, as they are written; and which requests for a key are refused. */
  lemma KeysRead(s: Scope, run: string, attempt: int, role: Role)
    ensures OriginalMediaKey(s).None? <==> !ValidScope(s)
    ensures ArtifactKey(s, run, attempt, role).None? <==> !ValidScope(s) || !IsUuid(run) || attempt < 0 || attempt > 999
    ensures ValidScope(s) && Lower(s.tenant) == s.tenant && Lower(s.client) == s.client && Lower(s.meeting) == s.meeting ==>
              var prefix := "t/" + s.tenant + "/c/" + s.client + "/m/" + s.meeting;
              && OriginalMediaKey(s) == Some(prefix + "/original/source")
              && (ArtifactKey(s, run, attempt, role).Some? && Lower(run) == run ==>
                    ArtifactKey(s, run, attempt, role).value
                    == prefix + "/r/" + run + match role
                                              case Normalized => "/normalized/a" + Decimal(attempt) + "/audio.wav"
                                              case Transcript => "/transcript/a" + Decimal(attempt) + "/transcript.ndjson.gz"
                                              case Diarization => "/diarization/a" + Decimal(attempt) + "/turns.ndjson.gz")
  {
    if ArtifactKey(s, run, attempt, role).Some? { TailReads(attempt, role); }
  }

  lemma RoleReads(role: Role)
    ensures "/" + RoleName(role) + "/a" == match role case Normalized => "/normalized/a" case Transcript => "/transcript/a" case Diarization => "/diarization/a"
  {
  }

  lemma ObjectReads(role: Role)
    ensures "/" + ObjectName(role) == match role
                                      case Normalized => "/audio.wav"
                                      case Transcript => "/transcript.ndjson.gz"
                                      case Diarization => "/turns.ndjson.gz"
  {
  }

  lemma TailReads(attempt: nat, role: Role)
    ensures Tail(attempt, role) == match role
                                   case Normalized => "/normalized/a" + Decimal(attempt) + "/audio.wav"
                                   case Transcript => "/transcript/a" + Decimal(attempt) + "/transcript.ndjson.gz"
                                   case Diarization => "/diarization/a" + Decimal(attempt) + "/turns.ndjson.gz"
  {
    hide Decimal, RoleName, ObjectName;
    RoleReads(role);
    ObjectReads(role);
    Associative("/" + RoleName(role) + "/a", Decimal(attempt), "/" + ObjectName(role));
  }
}
