/** The decision logic behind the HTTP endpoints: token check, session
    listing, permission read/override, and the flight-plan text parser
    (src/modules/APIServer.module.ts). */
module APIServer {
  import opened Packets
  import U = Users

  // ---------------------------------------------------------------- token

  /** `POST /api/token/check`: HTTP status and the `status` flag of the body. */
  datatype TokenReply = TokenReply(httpStatus: int, valid: bool)

  /** The only accepted token is the string "test" (strict equality, so a
      missing or non-string token is refused). */
  function CheckToken(token: Json): (r: TokenReply)
    ensures r.valid <==> token == Str("test")
    ensures r.httpStatus == (if r.valid then 200 else 400)
  {
    if token == Str("test") then TokenReply(200, true) else TokenReply(400, false)
  }

  // ------------------------------------------------------------ listing

  /** One entry of `GET /api/users`; a capability the set lacks is undefined
      (None). */
  datatype UserSummary = UserSummary(
    id: string,
    ip: string,
    isSuperUser: Option<bool>,
    canPilotingPitch: Option<bool>,
    canPilotingRoll: Option<bool>,
    canPilotingThrottle: Option<bool>,
    canMoveCamera: Option<bool>,
    canUseAutonomy: Option<bool>)

  function Capability(p: map<string, bool>, key: string): (v: Option<bool>)
    ensures v.Some? <==> key in p
    ensures v.Some? ==> v.value == p[key]
  {
    if key in p then Some(p[key]) else None
  }

  /** The six capabilities a listing reports, in its key order. */
  const ReportedKeys: seq<string> := ["isSuperUser", "canPilotingPitch", "canPilotingRoll",
                                      "canPilotingThrottle", "canMoveCamera", "canUseAutonomy"]

  /** The entry of a summary under a capability's name. */
  function Reported(r: UserSummary, key: string): Option<bool> {
    match key
    case "isSuperUser" => r.isSuperUser
    case "canPilotingPitch" => r.canPilotingPitch
    case "canPilotingRoll" => r.canPilotingRoll
    case "canPilotingThrottle" => r.canPilotingThrottle
    case "canMoveCamera" => r.canMoveCamera
    case "canUseAutonomy" => r.canUseAutonomy
    case _ => None
  }

  /** One listing entry: the session's id and ip, and the six reported
      capabilities. */
  function Summarize(u: U.User): (r: UserSummary)
    ensures r.id == u.id && r.ip == u.ip
  {
    var p := u.permissions;
    UserSummary(u.id, u.ip,
      Capability(p, "isSuperUser"), Capability(p, "canPilotingPitch"),
      Capability(p, "canPilotingRoll"), Capability(p, "canPilotingThrottle"),
      Capability(p, "canMoveCamera"), Capability(p, "canUseAutonomy"))
  }

  /** Each reported capability is exactly what the session's set holds
      under that name, and undefined when the set lacks it. */
  lemma SummaryReportsCapabilities(u: U.User, key: string)
    requires key in ReportedKeys
    ensures var v := Reported(Summarize(u), key);
      && (v.Some? <==> key in u.permissions)
      && (v.Some? ==> v.value == u.permissions[key])
  {
  }

  /** The `.map` over the sessions: one summary per session, same order. */
  function Summaries(sessions: seq<U.User>): (r: seq<UserSummary>)
    ensures |r| == |sessions|
    ensures forall i :: 0 <= i < |r| ==> r[i] == Summarize(sessions[i])
  {
    if sessions == [] then [] else [Summarize(sessions[0])] + Summaries(sessions[1..])
  }

  /** `GET /api/users`: exactly one entry per registered session, in registry
      order, each naming its session. */
  function UsersListing(clients: U.Users): (r: seq<UserSummary>)
    reads clients
    requires clients.Valid()
    ensures |r| == |clients.ids| == |clients.users|
    ensures forall i :: 0 <= i < |r| ==> r[i].id == clients.ids[i] && r[i] == Summarize(clients.users[clients.ids[i]])
    ensures forall id :: id in clients.users <==> exists i :: 0 <= i < |r| && r[i].id == id
  {
    var sessions := clients.Values();
    var r := Summaries(sessions);
    ListedIds(sessions, r);
    assert forall id :: id in clients.users <==> Among(sessions, id);
    r
  }

  predicate Listed(r: seq<UserSummary>, id: string) {
    exists i :: 0 <= i < |r| && r[i].id == id
  }

  predicate Among(sessions: seq<U.User>, id: string) {
    exists i :: 0 <= i < |sessions| && sessions[i].id == id
  }

  /** Summarising keeps each session's id in its place. */
  lemma ListedIds(sessions: seq<U.User>, r: seq<UserSummary>)
    requires |r| == |sessions|
    requires forall i :: 0 <= i < |r| ==> r[i] == Summarize(sessions[i])
    ensures forall id :: Listed(r, id) <==> Among(sessions, id)
  {
    forall id
      ensures Listed(r, id) <==> Among(sessions, id)
    {
      if i :| 0 <= i < |r| && r[i].id == id {
        assert sessions[i].id == id;
      }
      if i :| 0 <= i < |sessions| && sessions[i].id == id {
        assert r[i].id == id;
      }
    }
  }

  // -------------------------------------------------------- permissions

  /** A reply that is either 404 or a 200 with a JSON body. */
  datatype Reply<T> = NotFound | Ok(body: T)

  /** `GET /api/user/:id/permissions`: 404 exactly for an unknown session (an
      empty set is still an object, hence truthy). */
  method GetPermissionsEndpoint(clients: U.Users, id: string) returns (r: Reply<map<string, bool>>)
    requires clients.Valid()
    ensures r.NotFound? <==> id !in clients.users
    ensures r.Ok? ==> r.body == clients.users[id].permissions
  {
    var permissions := clients.GetPermissions(id);
    if permissions.None? {
      return NotFound;
    }
    r := Ok(permissions.value);
  }

  /** `GET /api/user/:id/permission/:key/set/:value`: unknown session → 404 and
      nothing changes; otherwise only that key of that session changes, to
      true exactly when the path value is "1", the session is notified with
      the one changed key, and the reply is the updated set. */
  method SetPermissionEndpoint(clients: U.Users, id: string, key: string, value: string)
    returns (r: Reply<map<string, bool>>, notice: Option<Packet>)
    requires clients.Valid()
    modifies clients
    ensures clients.Valid() && clients.ids == old(clients.ids)
    ensures id !in old(clients.users) ==>
      r.NotFound? && notice.None? && clients.users == old(clients.users)
    ensures id in old(clients.users) ==>
      var u := old(clients.users)[id];
      && clients.users == old(clients.users)[id := u.(permissions := u.permissions[key := value == "1"])]
      && r == Ok(clients.users[id].permissions)
      && notice == Some(Message("permission", Obj([(key, Bool(value == "1"))])))
  {
    var known := clients.Exists(id);
    if !known {
      return NotFound, None;
    }
    var isEnabled := value == "1";
    clients.SetPermission(id, key, isEnabled);
    notice := Some(Message("permission", Obj([(key, Bool(isEnabled))])));
    var permissions := clients.GetPermissions(id);
    r := Ok(permissions.value);
  }

  // -------------------------------------------------------- flight plans

  /** The file a plan name is served from. */
  function FlightPlanFileName(name: string): (r: string)
    ensures |r| == |name| + 8
    ensures r[..|name|] == name && r[|name|..] == ".mavlink"
  {
    name + ".mavlink"
  }

  /** `s.split(sep)` for a one-character separator. */
  function Split(s: string, sep: char): (r: seq<string>)
    ensures |r| >= 1
    ensures forall k :: 0 <= k < |r| ==> sep !in r[k]
    decreases |s|
  {
    if s == [] then [""]
    else
      var rest := Split(s[1..], sep);
      if s[0] == sep then [""] + rest
      else [[s[0]] + rest[0]] + rest[1..]
  }

  /** `pieces.join(sep)` */
  function Join(pieces: seq<string>, sep: string): string
    decreases |pieces|
  {
    if pieces == [] then ""
    else if |pieces| == 1 then pieces[0]
    else pieces[0] + sep + Join(pieces[1..], sep)
  }

  /** Splitting undoes joining, for pieces free of the separator. */
  lemma {:induction false} SplitJoin(pieces: seq<string>, sep: char)
    requires |pieces| >= 1
    requires forall k :: 0 <= k < |pieces| ==> sep !in pieces[k]
    ensures Split(Join(pieces, [sep]), sep) == pieces
    decreases |pieces|, |pieces[0]|
  {
    var p := pieces[0];
    if |pieces| == 1 {
      SplitPiece(p, sep);
    } else {
      var tail := Join(pieces[1..], [sep]);
      SplitJoin(pieces[1..], sep);
      SplitPrefix(p, sep, [sep] + tail);
      assert Join(pieces, [sep]) == p + ([sep] + tail);
      assert Split([sep] + tail, sep) == [""] + pieces[1..] by {
        assert ([sep] + tail)[1..] == tail;
      }
      assert p + "" == p;
      assert [p] + pieces[1..] == pieces;
    }
  }

  /** A string without the separator splits into itself. */
  lemma {:induction false} SplitPiece(p: string, sep: char)
    requires sep !in p
    ensures Split(p, sep) == [p]
    decreases |p|
  {
    if p != [] {
      SplitPiece(p[1..], sep);
      assert [p[0]] + p[1..] == p;
    }
  }

  /** A separator-free prefix is glued onto the first piece of what follows. */
  lemma {:induction false} SplitPrefix(p: string, sep: char, s: string)
    requires sep !in p
    ensures Split(p + s, sep) == [p + Split(s, sep)[0]] + Split(s, sep)[1..]
    decreases |p|
  {
    if p != [] {
      SplitPrefix(p[1..], sep, s);
      assert (p + s)[0] == p[0] && p[0] != sep;
      assert (p + s)[1..] == p[1..] + s;
      var rest := Split(p[1..] + s, sep);
      assert Split(p + s, sep) == [[p[0]] + rest[0]] + rest[1..];
      assert [p[0]] + (p[1..] + Split(s, sep)[0]) == p + Split(s, sep)[0];
    } else {
      var r := Split(s, sep);
      assert p + s == s && p + r[0] == r[0];
      assert [r[0]] + r[1..] == r;
    }
  }

  /** Joining undoes splitting. */
  lemma {:induction false} JoinSplit(s: string, sep: char)
    ensures Join(Split(s, sep), [sep]) == s
    decreases |s|
  {
    if s != [] {
      var rest := Split(s[1..], sep);
      JoinSplit(s[1..], sep);
      if s[0] == sep {
        assert Split(s, sep) == [""] + rest;
        assert Join([""] + rest, [sep]) == "" + [sep] + Join(rest, [sep]) by {
          assert ([""] + rest)[1..] == rest;
        }
        assert s == [s[0]] + s[1..];
      } else {
        assert Split(s, sep) == [[s[0]] + rest[0]] + rest[1..];
        if |rest| == 1 {
          assert s == [s[0]] + rest[0];
        } else {
          assert Join(rest, [sep]) == rest[0] + [sep] + Join(rest[1..], [sep]);
          var r := Split(s, sep);
          assert r[1..] == rest[1..];
          assert Join(r, [sep]) == ([s[0]] + rest[0]) + [sep] + Join(rest[1..], [sep]);
          assert s == [s[0]] + s[1..];
        }
      }
    }
  }

  function DropTrailingCR(line: string): (r: string)
    ensures r == line || (line == r + "\r")
  {
    if |line| > 0 && line[|line| - 1] == '\r' then line[..|line| - 1] else line
  }

  /** `file.split(/\r?\n/g)`: split on "\n"; a "\r" right before a "\n" belongs
      to the separator, so it is dropped from every piece but the last. */
  function Lines(file: string): (r: seq<string>)
    ensures |r| == |Split(file, '\n')| >= 1
    ensures forall k :: 0 <= k < |r| ==> '\n' !in r[k]
  {
    var pieces := Split(file, '\n');
    seq(|pieces|, k requires 0 <= k < |pieces| =>
      if k < |pieces| - 1 then DropTrailingCR(pieces[k]) else pieces[k])
  }

  /** `.filter(Boolean)`: empty lines go. */
  function NonEmpty(lines: seq<string>): (r: seq<string>)
    ensures forall k :: 0 <= k < |r| ==> r[k] != ""
    ensures forall x :: x in r <==> x in lines && x != ""
    ensures (forall k :: 0 <= k < |lines| ==> lines[k] != "") ==> r == lines
  {
    if lines == [] then []
    else if lines[0] == "" then NonEmpty(lines[1..])
    else [lines[0]] + NonEmpty(lines[1..])
  }

  /** Filtering distributes over concatenation: the kept lines keep their
      order and multiplicity. */
  lemma {:induction false} NonEmptyAppend(a: seq<string>, b: seq<string>)
    ensures NonEmpty(a + b) == NonEmpty(a) + NonEmpty(b)
    decreases |a|
  {
    if a != [] {
      assert (a + b)[0] == a[0];
      assert (a + b)[1..] == a[1..] + b;
      NonEmptyAppend(a[1..], b);
    } else {
      assert a + b == b;
    }
  }

  /** A trailing empty line, as a final line break leaves, is dropped. */
  lemma NonEmptyDropsEmpty(lines: seq<string>)
    ensures NonEmpty(lines + [""]) == NonEmpty(lines)
  {
    NonEmptyAppend(lines, [""]);
    assert NonEmpty([""]) == NonEmpty([""][1..]);
  }

  /** One waypoint: tab-separated columns 0, 3, 8, 9 and 10, as text. A
      column the line does not have reads as undefined (None). */
  datatype Waypoint = Waypoint(
    index: Option<string>,
    kind: Option<string>,
    lat: Option<string>,
    lon: Option<string>,
    alt: Option<string>)

  function Column(columns: seq<string>, k: nat): (v: Option<string>)
    ensures v.Some? <==> k < |columns|
    ensures v.Some? ==> v.value == columns[k]
  {
    if k < |columns| then Some(columns[k]) else None
  }

  /** One row's waypoint: the index is always present, and a later column
      only when the earlier ones are. */
  function ToWaypoint(line: string): (r: Waypoint)
    ensures r.index.Some?
    ensures r.alt.Some? ==> r.lon.Some?
    ensures r.lon.Some? ==> r.lat.Some?
    ensures r.lat.Some? ==> r.kind.Some?
  {
    var o := Split(line, '\t');
    Waypoint(Column(o, 0), Column(o, 3), Column(o, 8), Column(o, 9), Column(o, 10))
  }

  /** A row written as tab-separated columns gives back its columns. */
  lemma RowColumns(columns: seq<string>)
    requires |columns| >= 1
    requires forall k :: 0 <= k < |columns| ==> '\t' !in columns[k]
    ensures ToWaypoint(Join(columns, "\t"))
         == Waypoint(Column(columns, 0), Column(columns, 3), Column(columns, 8),
                     Column(columns, 9), Column(columns, 10))
  {
    SplitJoin(columns, '\t');
  }

  /** The parse pipeline: drop the first line and the empty lines, and turn
      each remaining line into one waypoint, in file order. */
  function ParseFlightPlan(file: string): (r: seq<Waypoint>)
    ensures |r| == |NonEmpty(Lines(file)[1..])|
    ensures forall k :: 0 <= k < |r| ==> r[k] == ToWaypoint(NonEmpty(Lines(file)[1..])[k])
  {
    var rows := NonEmpty(Lines(file)[1..]);
    seq(|rows|, k requires 0 <= k < |rows| => ToWaypoint(rows[k]))
  }

  /** Lines written with CRLF endings come back exactly, whatever they hold
      besides line feeds. */
  lemma {:induction false} LinesOfCrlfText(lines: seq<string>)
    requires |lines| >= 1
    requires forall k :: 0 <= k < |lines| ==> '\n' !in lines[k]
    ensures Lines(Join(lines, "\r\n")) == lines
  {
    var withCr := seq(|lines|, k requires 0 <= k < |lines| =>
      if k < |lines| - 1 then lines[k] + "\r" else lines[k]);
    JoinCrlf(lines);
    assert forall k :: 0 <= k < |withCr| ==> '\n' !in withCr[k];
    SplitJoin(withCr, '\n');
    assert Split(Join(lines, "\r\n"), '\n') == withCr;
    forall k | 0 <= k < |lines| ensures Lines(Join(lines, "\r\n"))[k] == lines[k] {
      if k < |lines| - 1 {
        assert withCr[k] == lines[k] + "\r";
        assert DropTrailingCR(withCr[k]) == lines[k] by {
          assert (lines[k] + "\r")[..|lines[k]|] == lines[k];
        }
      }
    }
  }

  /** Joining with CRLF is joining with LF after appending CR to every line
      but the last. */
  lemma {:induction false} JoinCrlf(lines: seq<string>)
    requires |lines| >= 1
    ensures Join(lines, "\r\n")
         == Join(seq(|lines|, k requires 0 <= k < |lines| =>
                   if k < |lines| - 1 then lines[k] + "\r" else lines[k]), "\n")
    decreases |lines|
  {
    var withCr := seq(|lines|, k requires 0 <= k < |lines| =>
      if k < |lines| - 1 then lines[k] + "\r" else lines[k]);
    if |lines| > 1 {
      JoinCrlf(lines[1..]);
      var tailCr := seq(|lines| - 1, k requires 0 <= k < |lines| - 1 =>
        if k < |lines| - 2 then lines[1..][k] + "\r" else lines[1..][k]);
      assert withCr[1..] == tailCr;
      assert Join(withCr, "\n") == lines[0] + "\r" + "\n" + Join(tailCr, "\n");
      assert lines[0] + "\r" + "\n" == lines[0] + "\r\n";
    }
  }

  /** A plan file written as a header line followed by non-empty rows of
      tab-separated columns, with CRLF endings and with or without a final
      line break, yields one waypoint per row, in order, each taken from that
      row's columns. */
  lemma PlanFileRoundTrip(header: string, rows: seq<seq<string>>, finalBreak: bool)
    requires '\n' !in header
    requires forall i :: 0 <= i < |rows| ==> |rows[i]| >= 1
    requires forall i, k :: 0 <= i < |rows| && 0 <= k < |rows[i]| ==> '\n' !in rows[i][k] && '\t' !in rows[i][k]
    requires forall i :: 0 <= i < |rows| ==> Join(rows[i], "\t") != ""
    ensures var text := Join([header] + seq(|rows|, i requires 0 <= i < |rows| => Join(rows[i], "\t")), "\r\n");
      var plan := ParseFlightPlan(if finalBreak then text + "\r\n" else text);
      && |plan| == |rows|
      && forall i :: 0 <= i < |rows| ==>
           plan[i] == Waypoint(Column(rows[i], 0), Column(rows[i], 3), Column(rows[i], 8),
                               Column(rows[i], 9), Column(rows[i], 10))
  {
    var texts := seq(|rows|, i requires 0 <= i < |rows| => Join(rows[i], "\t"));
    var lines := [header] + texts;
    forall k | 0 <= k < |lines| ensures '\n' !in lines[k] {
      if k > 0 {
        JoinHasNo(rows[k - 1], "\t", '\n');
      }
    }
    if finalBreak {
      JoinFinalEmpty(lines, "\r\n");
      LinesOfCrlfText(lines + [""]);
      assert Lines(Join(lines, "\r\n") + "\r\n")[1..] == texts + [""];
      NonEmptyDropsEmpty(texts);
    } else {
      LinesOfCrlfText(lines);
      assert Lines(Join(lines, "\r\n"))[1..] == texts;
    }
    assert NonEmpty(texts) == texts;
    forall i | 0 <= i < |rows| ensures ToWaypoint(texts[i]) == Waypoint(Column(rows[i], 0), Column(rows[i], 3), Column(rows[i], 8), Column(rows[i], 9), Column(rows[i], 10)) {
      RowColumns(rows[i]);
    }
  }

  /** Joining with an empty last piece ends the text with the separator. */
  lemma {:induction false} JoinFinalEmpty(pieces: seq<string>, sep: string)
    requires |pieces| >= 1
    ensures Join(pieces + [""], sep) == Join(pieces, sep) + sep
    decreases |pieces|
  {
    if |pieces| > 1 {
      JoinFinalEmpty(pieces[1..], sep);
      assert (pieces + [""])[1..] == pieces[1..] + [""];
    }
  }

  /** Joining pieces free of a character with a separator free of it gives a
      text free of it. */
  lemma {:induction false} JoinHasNo(pieces: seq<string>, sep: string, c: char)
    requires c !in sep
    requires forall k :: 0 <= k < |pieces| ==> c !in pieces[k]
    ensures c !in Join(pieces, sep)
    decreases |pieces|
  {
    if |pieces| > 1 {
      JoinHasNo(pieces[1..], sep, c);
    }
  }

  /** `GET /flightplans/:name` over the plan directory's files (name →
      contents): 404 when the file is missing, else the name and waypoints. */
  datatype PlanReply = PlanNotFound | Plan(name: string, waypoints: seq<Waypoint>)

  function FlightPlanEndpoint(files: map<string, string>, name: string): (r: PlanReply)
    ensures r.PlanNotFound? <==> FlightPlanFileName(name) !in files
    ensures r.Plan? ==> r.name == name && r.waypoints == ParseFlightPlan(files[FlightPlanFileName(name)])
  {
    var fileName := FlightPlanFileName(name);
    if fileName !in files then PlanNotFound
    else Plan(name, ParseFlightPlan(files[fileName]))
  }
}
