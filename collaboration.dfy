/** The helpers of the real-time collaboration panel of a project: the elapsed-time clock, joining
    or opening the project's collaboration session, the presence snapshot and the one-second stats
    tick, the sharing toggles, the shared cursor's colour and the presence status colours. */
module Collaboration {
  import opened Wrappers
  import opened Text

  // ---------------------------------------------------------------------------------------------
  // Elapsed time as a clock

  /** `formatTime(seconds)`: `H:MM:SS` from one hour on, `M:SS` below. */
  function FormatTime(seconds: nat): (r: string)
  {
    var hours := seconds / 3600;
    var minutes := (seconds % 3600) / 60;
    var secs := seconds % 60;
    if hours > 0 then
      NatToString(hours) + ":" + PadStart2(NatToString(minutes)) + ":" + PadStart2(NatToString(secs))
    else
      NatToString(minutes) + ":" + PadStart2(NatToString(secs))
  }

  /** The pieces of `t` between colons, `t.split(':')`. */
  function SplitColon(t: string): (fs: seq<string>)
    ensures |fs| >= 1
  {
    if t == [] then [""]
    else if t[0] == ':' then [""] + SplitColon(t[1..])
    else
      var rest := SplitColon(t[1..]);
      [[t[0]] + rest[0]] + rest[1..]
  }

  /** Reading clock fields as a number of seconds, most significant field first. */
  function ClockValue(fs: seq<string>): nat
    requires forall i :: 0 <= i < |fs| ==> AllDigits(fs[i])
  {
    if fs == [] then 0 else ClockValue(fs[..|fs| - 1]) * 60 + DigitsValue(fs[|fs| - 1])
  }

  /** Every field is a non-empty run of decimal digits. */
  predicate DigitFields(fs: seq<string>) {
    forall i :: 0 <= i < |fs| ==> |fs[i]| >= 1 && AllDigits(fs[i])
  }

  /** The number of seconds a clock string shows, or `None` when it is not a clock string. */
  function ParseClock(t: string): Option<nat> {
    var fs := SplitColon(t);
    if DigitFields(fs) then Some(ClockValue(fs)) else None
  }

  lemma {:induction false} SplitNoColon(a: string)
    requires ':' !in a
    ensures SplitColon(a) == [a]
  {
    if a != [] {
      assert ':' !in a[1..];
      SplitNoColon(a[1..]);
      assert [a[0]] + a[1..] == a;
    }
  }

  lemma {:induction false} SplitAtColon(a: string, b: string)
    requires ':' !in a
    ensures SplitColon(a + ":" + b) == [a] + SplitColon(b)
  {
    if a == [] {
      assert a + ":" + b == [':'] + b;
      assert (a + ":" + b)[1..] == b;
    } else {
      var t := a + ":" + b;
      assert t[0] == a[0] && t[0] != ':';
      assert t[1..] == a[1..] + ":" + b;
      assert ':' !in a[1..];
      SplitAtColon(a[1..], b);
      assert [a[0]] + a[1..] == a;
    }
  }

  lemma DigitsHaveNoColon(s: string)
    requires AllDigits(s)
    ensures ':' !in s
  {
  }

  /** A clock field below 60: exactly two digits that read back as the value. */
  lemma TwoDigitField(n: nat)
    requires n < 60
    ensures var p := PadStart2(NatToString(n)); |p| == 2 && AllDigits(p) && DigitsValue(p) == n
  {
    var s := NatToString(n);
    NatToStringRoundTrip(n);
    var p := PadStart2(s);
    if n < 10 {
      assert p == ['0', s[0]];
      assert p[..1] == "0" && p[..1][..0] == [];
      assert DigitsValue(p[..1]) == 0;
    } else {
      assert s == NatToString(n / 10) + [DigitChar(n % 10)];
      assert p == s;
    }
  }

  /** Three colon-free pieces joined by colons split back into the three. */
  lemma SplitThree(a: string, b: string, c: string)
    requires ':' !in a && ':' !in b && ':' !in c
    ensures SplitColon(a + ":" + b + ":" + c) == [a, b, c]
  {
    SplitNoColon(c);
    SplitAtColon(b, c);
    assert a + ":" + b + ":" + c == a + ":" + (b + ":" + c);
    SplitAtColon(a, b + ":" + c);
  }

  /** Two colon-free pieces joined by a colon split back into the two. */
  lemma SplitTwo(a: string, b: string)
    requires ':' !in a && ':' !in b
    ensures SplitColon(a + ":" + b) == [a, b]
  {
    SplitNoColon(b);
    SplitAtColon(a, b);
  }

  /** The fields `formatTime` shows for the given hours, minutes and seconds. */
  function ClockFields(hours: nat, minutes: nat, secs: nat): seq<string> {
    if hours > 0 then [NatToString(hours)] + [PadStart2(NatToString(minutes)), PadStart2(NatToString(secs))]
    else [NatToString(minutes)] + [PadStart2(NatToString(secs))]
  }

  lemma {:induction false} SplitFormatTime(seconds: nat)
    ensures SplitColon(FormatTime(seconds)) == ClockFields(seconds / 3600, (seconds % 3600) / 60, seconds % 60)
  {
    var hours := seconds / 3600;
    var minutes := (seconds % 3600) / 60;
    var secs := seconds % 60;
    TwoDigitField(minutes);
    TwoDigitField(secs);
    var m := PadStart2(NatToString(minutes));
    var sc := PadStart2(NatToString(secs));
    DigitsHaveNoColon(m);
    DigitsHaveNoColon(sc);
    if hours > 0 {
      DigitsHaveNoColon(NatToString(hours));
      SplitThree(NatToString(hours), m, sc);
    } else {
      DigitsHaveNoColon(NatToString(minutes));
      SplitTwo(NatToString(minutes), sc);
    }
  }

  /** What a clock string's fields look like: a leading number without leading zero, then one or two
      fields of exactly two digits below 60. */
  predicate ClockShape(fs: seq<string>) {
    && |fs| >= 1
    && DigitFields(fs)
    && (|fs[0]| > 1 ==> fs[0][0] != '0')
    && (forall i :: 1 <= i < |fs| ==> |fs[i]| == 2 && DigitsValue(fs[i]) < 60)
  }

  predicate TwoDigitsBelow60(p: string) {
    |p| == 2 && AllDigits(p) && DigitsValue(p) < 60
  }

  /** A leading number followed by two two-digit fields has the shape of a clock. */
  lemma ClockShapeThree(lead: string, m: string, sc: string)
    requires |lead| >= 1 && AllDigits(lead) && (|lead| > 1 ==> lead[0] != '0')
    requires TwoDigitsBelow60(m) && TwoDigitsBelow60(sc)
    ensures ClockShape([lead] + [m, sc])
  {
    var fs := [lead] + [m, sc];
    assert fs[0] == lead && fs[1] == m && fs[2] == sc && |fs| == 3;
    assert DigitFields(fs) by {
      forall i | 0 <= i < 3 ensures |fs[i]| >= 1 && AllDigits(fs[i]) { if i == 0 {} else if i == 1 {} else {} }
    }
    forall i | 1 <= i < 3 ensures |fs[i]| == 2 && DigitsValue(fs[i]) < 60 { if i == 1 {} else {} }
  }

  /** A leading number followed by one two-digit field has the shape of a clock. */
  lemma ClockShapeTwo(lead: string, sc: string)
    requires |lead| >= 1 && AllDigits(lead) && (|lead| > 1 ==> lead[0] != '0')
    requires TwoDigitsBelow60(sc)
    ensures ClockShape([lead] + [sc])
  {
    var fs := [lead] + [sc];
    assert fs[0] == lead && fs[1] == sc && |fs| == 2;
    assert DigitFields(fs) by {
      forall i | 0 <= i < 2 ensures |fs[i]| >= 1 && AllDigits(fs[i]) { if i == 0 {} else {} }
    }
  }

  lemma ClockFieldsShape(hours: nat, minutes: nat, secs: nat)
    requires minutes < 60 && secs < 60
    ensures |ClockFields(hours, minutes, secs)| == (if hours > 0 then 3 else 2)
    ensures ClockShape(ClockFields(hours, minutes, secs))
  {
    TwoDigitField(minutes);
    TwoDigitField(secs);
    var m := PadStart2(NatToString(minutes));
    var sc := PadStart2(NatToString(secs));
    if hours > 0 {
      ClockShapeThree(NatToString(hours), m, sc);
    } else {
      ClockShapeTwo(NatToString(minutes), sc);
    }
  }

  /** `formatTime(s)` shows three fields from one hour on and two below; every field after the first
      has exactly two digits and is below 60; the first is `String` of a number, so it has no leading
      zero. */
  lemma FormatTimeFields(seconds: nat)
    ensures |SplitColon(FormatTime(seconds))| == (if seconds >= 3600 then 3 else 2)
    ensures ClockShape(SplitColon(FormatTime(seconds)))
  {
    var hours, minutes, secs := seconds / 3600, (seconds % 3600) / 60, seconds % 60;
    SplitFormatTime(seconds);
    ClockFieldsShape(hours, minutes, secs);
    assert seconds >= 3600 <==> hours > 0;
  }

  lemma ClockValueTwo(a: string, b: string)
    requires AllDigits(a) && AllDigits(b)
    ensures ClockValue([a] + [b]) == DigitsValue(a) * 60 + DigitsValue(b)
  {
    assert ([a] + [b])[..1] == [a] && [a][..0] == [];
    assert ClockValue([a]) == DigitsValue(a);
  }

  lemma ClockValueThree(a: string, b: string, c: string)
    requires AllDigits(a) && AllDigits(b) && AllDigits(c)
    ensures ClockValue([a] + [b, c]) == (DigitsValue(a) * 60 + DigitsValue(b)) * 60 + DigitsValue(c)
  {
    var fs := [a] + [b, c];
    assert |fs| == 3 && fs[2] == c;
    assert fs[..2] == [a] + [b];
    ClockValueTwo(a, b);
    assert ClockValue(fs) == ClockValue(fs[..2]) * 60 + DigitsValue(c);
  }

  /** The clock fields read back as `(hours * 60 + minutes) * 60 + secs`. */
  lemma ClockFieldsValue(hours: nat, minutes: nat, secs: nat)
    requires minutes < 60 && secs < 60
    ensures ClockShape(ClockFields(hours, minutes, secs))
    ensures ClockValue(ClockFields(hours, minutes, secs)) == (hours * 60 + minutes) * 60 + secs
  {
    ClockFieldsShape(hours, minutes, secs);
    TwoDigitField(minutes);
    TwoDigitField(secs);
    if hours > 0 {
      NatToStringRoundTrip(hours);
      ClockValueThree(NatToString(hours), PadStart2(NatToString(minutes)), PadStart2(NatToString(secs)));
    } else {
      NatToStringRoundTrip(minutes);
      ClockValueTwo(NatToString(minutes), PadStart2(NatToString(secs)));
    }
  }

  /** Hours, minutes and seconds as `formatTime` computes them add back up. */
  lemma ClockArithmetic(seconds: nat)
    ensures (seconds / 3600 * 60 + (seconds % 3600) / 60) * 60 + seconds % 60 == seconds
  {
    var r := seconds % 3600;
    assert seconds == seconds / 3600 * 3600 + r;
    assert r == r / 60 * 60 + r % 60;
    assert r % 60 == seconds % 60 by {
      assert seconds == (seconds / 3600 * 60 + r / 60) * 60 + r % 60;
    }
  }

  /** Reading the clock `formatTime(s)` shows gives back `s`: `hours * 3600 + minutes * 60 + secs`
      is `s`, with minutes and seconds below 60. */
  lemma FormatTimeRoundTrip(seconds: nat)
    ensures ParseClock(FormatTime(seconds)) == Some(seconds)
  {
    var hours, minutes, secs := seconds / 3600, (seconds % 3600) / 60, seconds % 60;
    SplitFormatTime(seconds);
    ClockFieldsValue(hours, minutes, secs);
    ParseClockFields(FormatTime(seconds), ClockFields(hours, minutes, secs));
    ClockArithmetic(seconds);
  }

  /** A string whose fields have the shape of a clock reads as the value of its fields. */
  lemma ParseClockFields(t: string, fs: seq<string>)
    requires SplitColon(t) == fs && ClockShape(fs)
    ensures ParseClock(t) == Some(ClockValue(fs))
  {
  }

  // ---------------------------------------------------------------------------------------------
  // Collaboration sessions

  /** A document of the `collaborationSessions` collection. */
  datatype Session = Session(
    id: string,
    projectId: string,
    participants: seq<string>,
    startTime: int,
    isActive: bool,
    sharedCursor: bool,
    sharedScreen: bool,
    voiceChat: bool,
    videoChat: bool)

  predicate NoDuplicates(xs: seq<string>) {
    forall i, j :: 0 <= i < j < |xs| ==> xs[i] != xs[j]
  }

  /** The session a user opens when the project has none active. */
  function NewSession(id: string, projectId: string, email: string, now: int): (s: Session)
    ensures s.participants == [email] && NoDuplicates(s.participants)
    ensures s.id == id && s.projectId == projectId && s.startTime == now && s.isActive
    ensures !s.sharedCursor && !s.sharedScreen && !s.voiceChat && !s.videoChat
  {
    Session(id, projectId, [email], now, true, false, false, false, false)
  }

  /** Joining: the email is added at the end when it is not yet a participant. */
  function Joined(s: Session, email: string): (r: Session)
    ensures email in r.participants
    ensures |s.participants| <= |r.participants| <= |s.participants| + 1
    ensures r.participants[..|s.participants|] == s.participants
    ensures email in s.participants ==> r == s
    ensures r == s.(participants := r.participants)
  {
    if email in s.participants then s else s.(participants := s.participants + [email])
  }

  /** Joining adds nobody but the joining user, and duplicates only arise if they were there. */
  lemma JoinedMembers(s: Session, email: string)
    ensures forall p :: p in Joined(s, email).participants <==> p in s.participants || p == email
    ensures NoDuplicates(s.participants) ==> NoDuplicates(Joined(s, email).participants)
  {
    if email !in s.participants {
      var ps := s.participants + [email];
      assert forall p :: p in ps <==> p in s.participants || p == email;
    }
  }

  /** Joining twice is joining once. */
  lemma JoinedTwice(s: Session, email: string)
    ensures Joined(Joined(s, email), email) == Joined(s, email)
  {
  }

  /** The first active session of the project, which the session query returns first. */
  function ActiveSessionIndex(store: seq<Session>, projectId: string): (k: Option<nat>)
    ensures k.Some? ==> k.value < |store| && store[k.value].projectId == projectId && store[k.value].isActive
    ensures k.Some? ==> forall j :: 0 <= j < k.value ==> !(store[j].projectId == projectId && store[j].isActive)
    ensures k.None? ==> forall j :: 0 <= j < |store| ==> !(store[j].projectId == projectId && store[j].isActive)
  {
    if store == [] then None
    else if store[|store| - 1].projectId == projectId && store[|store| - 1].isActive then
      var k := ActiveSessionIndex(store[..|store| - 1], projectId);
      if k.Some? then k else Some(|store| - 1)
    else ActiveSessionIndex(store[..|store| - 1], projectId)
  }

  /** `initializeSession` once the user and project are known: join the project's first active
      session, or open a new one with id `newId` when there is none. The result is the session the
      panel keeps and the collection afterwards. */
  function JoinOrCreate(store: seq<Session>, projectId: string, email: string, newId: string, now: int)
    : (r: (Session, seq<Session>))
    ensures email in r.0.participants && r.0.projectId == projectId && r.0.isActive
    ensures ActiveSessionIndex(store, projectId).None? ==>
      r.0 == NewSession(newId, projectId, email, now) && r.1 == store + [r.0]
    ensures ActiveSessionIndex(store, projectId).Some? ==>
      var k := ActiveSessionIndex(store, projectId).value;
      r.0 == Joined(store[k], email) && r.1 == store[k := r.0]
  {
    match ActiveSessionIndex(store, projectId)
    case None =>
      var s := NewSession(newId, projectId, email, now);
      (s, store + [s])
    case Some(k) =>
      var s := Joined(store[k], email);
      (s, store[k := s])
  }

  /** Opening the panel again leaves the collection as it is: the session opened or joined the
      first time is found and the user is already one of its participants. */
  lemma {:induction false} JoinOrCreateTwice(store: seq<Session>, projectId: string, email: string,
                                             newId: string, now: int, newId': string, now': int)
    ensures var (s, store') := JoinOrCreate(store, projectId, email, newId, now);
      JoinOrCreate(store', projectId, email, newId', now') == (s, store')
  {
    var (s, store') := JoinOrCreate(store, projectId, email, newId, now);
    match ActiveSessionIndex(store, projectId)
    case None =>
      ActiveSessionIndexLast(store, projectId, s);
      assert Joined(s, email) == s;
      assert store'[|store| := s] == store';
    case Some(k) =>
      ActiveSessionIndexSame(store, projectId, k, s);
      assert store'[k] == s;
      assert Joined(s, email) == s;
      assert store'[k := s] == store';
  }

  /** Appending an active session of the project to a collection with none finds the new one. */
  lemma ActiveSessionIndexLast(store: seq<Session>, projectId: string, s: Session)
    requires ActiveSessionIndex(store, projectId).None?
    requires s.projectId == projectId && s.isActive
    ensures ActiveSessionIndex(store + [s], projectId) == Some(|store|)
  {
    assert (store + [s])[..|store|] == store;
  }

  /** Replacing the found session by another active session of the project keeps it found. */
  lemma {:induction false} ActiveSessionIndexSame(store: seq<Session>, projectId: string, k: nat, s: Session)
    requires ActiveSessionIndex(store, projectId) == Some(k)
    requires s.projectId == projectId && s.isActive
    ensures ActiveSessionIndex(store[k := s], projectId) == Some(k)
    decreases |store|
  {
    var t := store[k := s];
    if k < |store| - 1 {
      assert t[..|t| - 1] == store[..|store| - 1][k := s];
      assert ActiveSessionIndex(store[..|store| - 1], projectId) == Some(k);
      ActiveSessionIndexSame(store[..|store| - 1], projectId, k, s);
    } else {
      assert t[..|t| - 1] == store[..|store| - 1];
    }
  }

  /** Nothing but the opened or joined session changes in the collection. */
  lemma JoinOrCreateTouchesOne(store: seq<Session>, projectId: string, email: string, newId: string, now: int)
    ensures var (s, store') := JoinOrCreate(store, projectId, email, newId, now);
      && |store| <= |store'| <= |store| + 1
      && (forall j :: 0 <= j < |store| && store[j] != store'[j] ==> store'[j] == s)
      && (|store'| == |store| + 1 ==> store'[|store|] == s && s.participants == [email])
  {
  }

  // ---------------------------------------------------------------------------------------------
  // Presence and cursors

  /** A document of the `userPresence` collection. */
  datatype UserPresence = UserPresence(id: string, email: string, name: string, role: string,
                                       isOnline: bool, status: string)

  /** The signed-in user as the panel sees it. */
  datatype CurrentUser = CurrentUser(email: string, name: string, role: string)

  /** A document of the `cursorPositions` collection. */
  datatype CursorPosition = CursorPosition(userId: string, userName: string, userRole: string,
                                           x: int, y: int, timestamp: string, color: string)

  const AdminCursorColor := "#ef4444"
  const ClientCursorColor := "#3b82f6"

  /** The cursor document written on a mouse move: admins are red and tagged `admin`, everybody
      else is blue and tagged `client`. */
  function CursorFor(user: CurrentUser, x: int, y: int, timestamp: string): (c: CursorPosition)
    ensures c.userId == user.email && c.userName == user.name && c.x == x && c.y == y
    ensures c.timestamp == timestamp
    ensures user.role == "admin" ==> c.userRole == "admin" && c.color == AdminCursorColor
    ensures user.role != "admin" ==> c.userRole == "client" && c.color == ClientCursorColor
    ensures c.color == AdminCursorColor <==> c.userRole == "admin"
  {
    CursorPosition(user.email, user.name, if user.role == "admin" then "admin" else "client",
                   x, y, timestamp, if user.role == "admin" then AdminCursorColor else ClientCursorColor)
  }

  /** `getStatusColor(status)`: the dot colour of a presence status; anything unknown is grey. */
  function PresenceStatusColor(status: string): (c: string)
    ensures c == "bg-gray-500" <==> status != "available" && status != "busy" && status != "away"
  {
    match status
    case "available" => "bg-green-500"
    case "busy" => "bg-red-500"
    case "away" => "bg-yellow-500"
    case "offline" => "bg-gray-500"
    case _ => "bg-gray-500"
  }

  /** The four presence statuses get four different colours. */
  lemma PresenceColorsDistinct()
    ensures var cs := [PresenceStatusColor("available"), PresenceStatusColor("busy"),
                       PresenceStatusColor("away"), PresenceStatusColor("offline")];
      forall i, j :: 0 <= i < j < |cs| ==> cs[i] != cs[j]
  {
  }

  datatype SessionStats = SessionStats(totalParticipants: nat, activeTime: nat, messagesSent: nat, filesShared: nat)

  // ---------------------------------------------------------------------------------------------
  // The panel's state

  class CollaborationPanel {
    const projectId: string
    const user: Option<CurrentUser>
    var onlineUsers: seq<UserPresence>
    var isCursorSharing: bool
    var isPresenceVisible: bool
    var notifications: bool
    var collaborationSession: Option<Session>
    var sessionStats: SessionStats

    constructor (projectId: string, user: Option<CurrentUser>)
      ensures this.projectId == projectId && this.user == user
      ensures onlineUsers == [] && !isCursorSharing && isPresenceVisible && notifications
      ensures collaborationSession.None? && sessionStats == SessionStats(0, 0, 0, 0)
    {
      this.projectId := projectId;
      this.user := user;
      onlineUsers := [];
      isCursorSharing := false;
      isPresenceVisible := true;
      notifications := true;
      collaborationSession := None;
      sessionStats := SessionStats(0, 0, 0, 0);
    }

    /** `initializeSession`: nothing happens without a project and a signed-in user; otherwise the
        panel joins or opens the session and the collection is written accordingly. */
    method InitializeSession(store: seq<Session>, newId: string, now: int) returns (store': seq<Session>)
      modifies this
      ensures projectId == "" || user.None? ==> store' == store && collaborationSession == old(collaborationSession)
      ensures projectId != "" && user.Some? ==>
        var r := JoinOrCreate(store, projectId, user.value.email, newId, now);
        collaborationSession == Some(r.0) && store' == r.1
      ensures collaborationSession.Some? && old(collaborationSession) != collaborationSession ==>
        user.Some? && user.value.email in collaborationSession.value.participants
      ensures onlineUsers == old(onlineUsers) && isCursorSharing == old(isCursorSharing)
      ensures isPresenceVisible == old(isPresenceVisible) && notifications == old(notifications)
      ensures sessionStats == old(sessionStats)
    {
      if projectId == "" || user.None? {
        return store;
      }
      var r := JoinOrCreate(store, projectId, user.value.email, newId, now);
      collaborationSession := Some(r.0);
      store' := r.1;
    }

    /** A presence snapshot: the online users are replaced and counted. */
    method OnPresenceSnapshot(users: seq<UserPresence>)
      modifies this
      ensures onlineUsers == users && sessionStats.totalParticipants == |users|
      ensures sessionStats.activeTime == old(sessionStats.activeTime)
      ensures sessionStats.messagesSent == old(sessionStats.messagesSent)
      ensures sessionStats.filesShared == old(sessionStats.filesShared)
      ensures isCursorSharing == old(isCursorSharing) && isPresenceVisible == old(isPresenceVisible)
      ensures notifications == old(notifications) && collaborationSession == old(collaborationSession)
    {
      onlineUsers := users;
      sessionStats := sessionStats.(totalParticipants := |users|);
    }

    /** One tick of the one-second stats timer, which runs only while there is a session. */
    method Tick()
      modifies this
      ensures old(collaborationSession).Some? ==> sessionStats.activeTime == old(sessionStats.activeTime) + 1
      ensures old(collaborationSession).None? ==> sessionStats.activeTime == old(sessionStats.activeTime)
      ensures sessionStats.totalParticipants == old(sessionStats.totalParticipants)
      ensures sessionStats.messagesSent == old(sessionStats.messagesSent)
      ensures sessionStats.filesShared == old(sessionStats.filesShared)
      ensures onlineUsers == old(onlineUsers) && isCursorSharing == old(isCursorSharing)
      ensures isPresenceVisible == old(isPresenceVisible) && notifications == old(notifications)
      ensures collaborationSession == old(collaborationSession)
    {
      if collaborationSession.Some? {
        sessionStats := sessionStats.(activeTime := sessionStats.activeTime + 1);
      }
    }

    /** `toggleCursorSharing`: flips the flag and, when there is a session, writes the new flag as
        the session document's `sharedCursor`. The panel's own copy of the session is not updated. */
    method ToggleCursorSharing(store: seq<Session>) returns (store': seq<Session>)
      modifies this
      ensures isCursorSharing == !old(isCursorSharing)
      ensures old(collaborationSession).None? ==> store' == store
      ensures old(collaborationSession).Some? ==> store' == SetSharedCursor(store, old(collaborationSession).value.id, isCursorSharing)
      ensures onlineUsers == old(onlineUsers) && isPresenceVisible == old(isPresenceVisible)
      ensures notifications == old(notifications) && collaborationSession == old(collaborationSession)
      ensures sessionStats == old(sessionStats)
    {
      isCursorSharing := !isCursorSharing;
      store' := store;
      if collaborationSession.Some? {
        store' := SetSharedCursor(store, collaborationSession.value.id, isCursorSharing);
      }
    }

    /** `togglePresenceVisibility`. */
    method TogglePresenceVisibility()
      modifies this
      ensures isPresenceVisible == !old(isPresenceVisible)
      ensures onlineUsers == old(onlineUsers) && isCursorSharing == old(isCursorSharing)
      ensures notifications == old(notifications) && collaborationSession == old(collaborationSession)
      ensures sessionStats == old(sessionStats)
    {
      isPresenceVisible := !isPresenceVisible;
    }

    /** `toggleNotifications`. */
    method ToggleNotifications()
      modifies this
      ensures notifications == !old(notifications)
      ensures onlineUsers == old(onlineUsers) && isCursorSharing == old(isCursorSharing)
      ensures isPresenceVisible == old(isPresenceVisible) && collaborationSession == old(collaborationSession)
      ensures sessionStats == old(sessionStats)
    {
      notifications := !notifications;
    }
  }

  /** `updateDoc(session, {sharedCursor: value})`: the session with that id gets the flag, every
      other field and every other document stays; with no such document nothing is written. */
  function SetSharedCursor(store: seq<Session>, id: string, value: bool): (r: seq<Session>)
    ensures |r| == |store|
    ensures forall j :: 0 <= j < |r| && store[j].id == id ==> r[j] == store[j].(sharedCursor := value)
    ensures forall j :: 0 <= j < |r| && store[j].id != id ==> r[j] == store[j]
  {
    if store == [] then []
    else
      var last := store[|store| - 1];
      SetSharedCursor(store[..|store| - 1], id, value)
        + [if last.id == id then last.(sharedCursor := value) else last]
  }

  /** Writing the flag twice is writing it once, and the written value is what the session reads. */
  lemma SetSharedCursorIdempotent(store: seq<Session>, id: string, value: bool)
    ensures SetSharedCursor(SetSharedCursor(store, id, value), id, value) == SetSharedCursor(store, id, value)
    ensures forall j :: 0 <= j < |store| && store[j].id == id ==> SetSharedCursor(store, id, value)[j].sharedCursor == value
  {
  }
}
