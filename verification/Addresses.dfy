/** How the frontend hands out guest addresses and SSH ports: always one above the highest
    ever used, so that nothing is reused while old host state might linger. Creates and
    deletes are serial: the SELECT and the INSERT are not one transaction. */
module Addresses {
  import opened InstanceHost
  import opened InstanceSafety
  import opened Options

  // Decimal and hexadecimal text.

  function Digit(d: nat): char
    requires d < 10
  {
    ('0' as int + d) as char
  }

  function Decimal(n: nat): string {
    if n < 10 then [Digit(n)] else Decimal(n / 10) + [Digit(n % 10)]
  }

  predicate IsDigit(c: char) {
    '0' <= c <= '9'
  }

  /** A cast of text to an integer; anything but digits is an error. */
  function ParseInt(s: string): Option<nat> {
    if s == [] || !IsDigit(s[|s| - 1]) then None
    else
      var d := s[|s| - 1] as int - '0' as int;
      if |s| == 1 then Some(d)
      else
        var front := ParseInt(s[..|s| - 1]);
        if front.None? then None else Some(front.value * 10 + d)
  }

  lemma {:induction false} DecimalParses(n: nat)
    ensures ParseInt(Decimal(n)) == Some(n)
    ensures forall c | c in Decimal(n) :: IsDigit(c)
  {
    if n >= 10 {
      DecimalParses(n / 10);
      var s := Decimal(n);
      assert s[..|s| - 1] == Decimal(n / 10) && s[|s| - 1] == Digit(n % 10);
    }
  }

  /** The n-th field of dotted text, counting from one; empty when there is none. */
  function Field(s: string, n: nat): string
    requires n > 0
    decreases |s|
  {
    if s == [] then []
    else if s[0] == '.' then if n == 1 then [] else Field(s[1..], n - 1)
    else if n == 1 then [s[0]] + Field(s[1..], 1)
    else Field(s[1..], n)
  }

  lemma {:induction false} FieldSkips(a: string, s: string, n: nat)
    requires n > 1 && '.' !in a
    ensures Field(a + "." + s, n) == Field(s, n - 1)
    decreases |a|
  {
    if a == [] {
      assert (a + "." + s)[1..] == s;
    } else {
      assert (a + "." + s)[1..] == a[1..] + "." + s;
      FieldSkips(a[1..], s, n);
    }
  }

  lemma {:induction false} FieldTakes(a: string, s: string)
    requires '.' !in a
    ensures Field(a + "." + s, 1) == a && Field(a, 1) == a
    decreases |a|
  {
    if a == [] {
      assert (a + "." + s)[0] == '.';
    } else {
      assert (a + "." + s)[1..] == a[1..] + "." + s;
      FieldTakes(a[1..], s);
      assert [a[0]] + a[1..] == a;
    }
  }

  function GuestIP(octet: nat): string {
    "172" + "." + ("16" + "." + ("0" + "." + Decimal(octet)))
  }

  lemma FieldsOfGuestIP(octet: nat)
    ensures Field(GuestIP(octet), 1) == "172" && Field(GuestIP(octet), 2) == "16"
    ensures Field(GuestIP(octet), 3) == "0" && Field(GuestIP(octet), 4) == Decimal(octet)
    ensures GuestIP(octet) == "172.16.0." + Decimal(octet)
  {
    DecimalParses(octet);
    assert '.' !in Decimal(octet);
    var last := Decimal(octet);
    var third := "0" + "." + last;
    var second := "16" + "." + third;
    FieldTakes("172", second);
    FieldSkips("172", second, 2);
    FieldSkips("172", second, 3);
    FieldSkips("172", second, 4);
    FieldTakes("16", third);
    FieldSkips("16", third, 2);
    FieldSkips("16", third, 3);
    FieldTakes("0", last);
    FieldSkips("0", last, 2);
    FieldTakes(last, "");
  }

  function HexDigit(d: nat): char
    requires d < 16
  {
    if d < 10 then Digit(d) else ('a' as int + (d - 10)) as char
  }

  /** Two hexadecimal digits, more if they are needed. */
  function Hex2(n: nat): string {
    if n < 256 then [HexDigit(n / 16), HexDigit(n % 16)] else Hex2(n / 16) + [HexDigit(n % 16)]
  }

  lemma Hex2Differs(a: nat, b: nat)
    requires a < 256 && b < 256 && a != b
    ensures Hex2(a) != Hex2(b)
  {
    assert a / 16 != b / 16 || a % 16 != b % 16;
    assert HexDigit(a / 16) != HexDigit(b / 16) || HexDigit(a % 16) != HexDigit(b % 16);
    assert Hex2(a)[0] != Hex2(b)[0] || Hex2(a)[1] != Hex2(b)[1];
  }

  /** A number scanned from text; zero when there is none. */
  function Scanned(s: string): nat {
    if ParseInt(s).Some? then ParseInt(s).value else 0
  }

  function MacFromIP(ip: string): string {
    "02:fc:" + Hex2(Scanned(Field(ip, 1))) + ":" + Hex2(Scanned(Field(ip, 2))) + ":" + Hex2(Scanned(Field(ip, 3)))
    + ":" + Hex2(Scanned(Field(ip, 4)))
  }

  /** The MAC address of a guest address, in full. */
  lemma MacOfGuestIP(octet: nat)
    requires octet < 256
    ensures var digits := "0123456789abcdef";
            MacFromIP(GuestIP(octet)) == "02:fc:ac:10:00:" + [digits[octet / 16], digits[octet % 16]]
  {
    FieldsOfGuestIP(octet);
    DecimalParses(octet);
    ConstantOctets();
    HexDigits(octet / 16);
    HexDigits(octet % 16);
    var common := "02:fc:" + "ac" + ":" + "10" + ":" + "00" + ":";
    assert MacFromIP(GuestIP(octet)) == common + Hex2(octet);
    assert common == "02:fc:ac:10:00:";
  }

  lemma ConstantOctets()
    ensures Hex2(Scanned("172")) == "ac" && Hex2(Scanned("16")) == "10" && Hex2(Scanned("0")) == "00"
  {
    Scans172();
    Scans16();
  }

  lemma Scans172()
    ensures Scanned("172") == 172
  {
    assert "172"[..2] == "17" && "17"[..1] == "1";
    assert ParseInt("1") == Some(1);
    assert ParseInt("17") == Some(17);
  }

  lemma Scans16()
    ensures Scanned("16") == 16 && Scanned("0") == 0
  {
    assert "16"[..1] == "1";
    assert ParseInt("1") == Some(1);
  }

  lemma HexDigits(d: nat)
    requires d < 16
    ensures HexDigit(d) == "0123456789abcdef"[d]
  {
  }

  /** Different last octets give different MAC addresses. */
  lemma MacsDiffer(a: nat, b: nat)
    requires a < 256 && b < 256 && a != b
    ensures MacFromIP(GuestIP(a)) != MacFromIP(GuestIP(b))
  {
    FieldsOfGuestIP(a);
    FieldsOfGuestIP(b);
    DecimalParses(a);
    DecimalParses(b);
    Hex2Differs(a, b);
    var x, y := MacFromIP(GuestIP(a)), MacFromIP(GuestIP(b));
    var common := "02:fc:" + Hex2(Scanned("172")) + ":" + Hex2(Scanned("16")) + ":" + Hex2(Scanned("0")) + ":";
    assert x == common + Hex2(a) && y == common + Hex2(b);
    assert x[|common|..] == Hex2(a) && y[|common|..] == Hex2(b);
  }

  // The table.

  datatype RowState = Creating | Running | Stopped | Errored

  datatype Row = Row(id: string, name: string, state: RowState, guestIP: string, port: int, deleted: bool)

  /** COALESCE(MAX(ssh_host_port), 39999). */
  function MaxPort(rows: seq<Row>): int {
    if rows == [] then 39999
    else
      var m, p := MaxPort(rows[..|rows| - 1]), rows[|rows| - 1].port;
      if |rows| > 1 && m > p then m else p
  }

  /** COALESCE(MAX(split_part(guest_ip, '.', 4)::int), 1); an error if a cast fails. */
  function MaxOctet(rows: seq<Row>): Option<nat> {
    if rows == [] then Some(1)
    else
      var m, o := MaxOctet(rows[..|rows| - 1]), ParseInt(Field(rows[|rows| - 1].guestIP, 4));
      if m.None? || o.None? then None else Some(if |rows| > 1 && m.value > o.value then m.value else o.value)
  }

  predicate NameTaken(rows: seq<Row>, name: string) {
    exists i | 0 <= i < |rows| :: rows[i].name == name && !rows[i].deleted
  }

  predicate IdTaken(rows: seq<Row>, id: string) {
    exists i | 0 <= i < |rows| :: rows[i].id == id
  }

  /** What the two handlers depend on besides the table: the id the database draws, whether
      its statements go through, and whether the instance-manager succeeds. */
  datatype Request =
    | Create(name: string, id: string, insertOk: bool, managerOk: bool, updateOk: bool)
    | Remove(id: string, managerOk: bool, updateOk: bool)

  /** The row for an id after a delete: marked, never taken away. */
  function Marked(rows: seq<Row>, id: string): seq<Row> {
    seq(|rows|, k requires 0 <= k < |rows| =>
      if rows[k].id == id && !rows[k].deleted then rows[k].(state := Stopped, deleted := true) else rows[k])
  }

  function Handle(rows: seq<Row>, req: Request): (seq<Row>, int) {
    match req
    case Create(name, id, insertOk, managerOk, updateOk) =>
      if MaxOctet(rows).None? then (rows, 500)
      else
        var port, octet := MaxPort(rows) + 1, MaxOctet(rows).value + 1;
        if octet > 254 then (rows, 507)
        else if NameTaken(rows, name) || IdTaken(rows, id) then (rows, 409)
        else if !insertOk then (rows, 500)
        else
          var state := if !updateOk then Creating else if managerOk then Running else Errored;
          (rows + [Row(id, name, state, GuestIP(octet), port, false)],
           if !updateOk then 500 else if managerOk then 201 else 502)
    case Remove(id, managerOk, updateOk) =>
      if !IdTaken(rows, id) then (rows, 404)
      else if !managerOk then (rows, 502)
      else if !updateOk then (rows, 500)
      else (Marked(rows, id), 200)
  }

  /** The table after a serial history. */
  function After(rows: seq<Row>, reqs: seq<Request>): seq<Row>
    decreases |reqs|
  {
    if reqs == [] then rows else After(Handle(rows, reqs[0]).0, reqs[1..])
  }

  // What a history from the empty table keeps.

  /** Row k, counting from zero and deleted rows included, has address 172.16.0.(k + 2) and
      port 40000 + k; no id occurs twice. */
  ghost predicate Sequential(rows: seq<Row>) {
    && |rows| <= 253
    && (forall k | 0 <= k < |rows| :: rows[k].guestIP == GuestIP(k + 2) && rows[k].port == 40000 + k)
    && (forall i, j | 0 <= i < j < |rows| :: rows[i].id != rows[j].id)
  }

  lemma {:induction false} MaximaOfSequential(rows: seq<Row>)
    requires Sequential(rows)
    ensures MaxPort(rows) == 39999 + |rows| && MaxOctet(rows) == Some(1 + |rows|)
  {
    if rows != [] {
      MaximaOfSequential(rows[..|rows| - 1]);
      FieldsOfGuestIP(|rows| + 1);
      DecimalParses(|rows| + 1);
    }
  }

  /** Names are unique among the rows that are not deleted. */
  ghost predicate LiveNamesDiffer(rows: seq<Row>) {
    forall i, j | 0 <= i < j < |rows| && !rows[i].deleted && !rows[j].deleted :: rows[i].name != rows[j].name
  }

  /** A name and an address stay with their row, and a deleted row stays deleted. */
  ghost predicate Extends(rows: seq<Row>, rows': seq<Row>) {
    && |rows| <= |rows'|
    && (forall k | 0 <= k < |rows| ::
          && rows'[k].id == rows[k].id && rows'[k].name == rows[k].name
          && rows'[k].guestIP == rows[k].guestIP && rows'[k].port == rows[k].port
          && (rows[k].deleted ==> rows'[k] == rows[k]))
  }

  lemma RemoveKeeps(rows: seq<Row>, id: string)
    requires Sequential(rows)
    ensures Sequential(Marked(rows, id)) && Extends(rows, Marked(rows, id))
    ensures LiveNamesDiffer(rows) ==> LiveNamesDiffer(Marked(rows, id))
  {
  }

  /** The next row. */
  lemma AppendKeeps(rows: seq<Row>, row: Row)
    requires Sequential(rows) && |rows| < 253 && !IdTaken(rows, row.id)
    requires row.guestIP == GuestIP(|rows| + 2) && row.port == 40000 + |rows|
    ensures Sequential(rows + [row]) && Extends(rows, rows + [row])
  {
  }

  lemma NameKeeps(rows: seq<Row>, row: Row)
    requires LiveNamesDiffer(rows) && !NameTaken(rows, row.name)
    ensures LiveNamesDiffer(rows + [row])
  {
  }

  lemma HandleKeeps(rows: seq<Row>, req: Request)
    requires Sequential(rows)
    ensures Sequential(Handle(rows, req).0) && Extends(rows, Handle(rows, req).0)
    ensures LiveNamesDiffer(rows) ==> LiveNamesDiffer(Handle(rows, req).0)
    ensures |rows| == 253 && req.Create? ==> Handle(rows, req) == (rows, 507)
    ensures |Handle(rows, req).0| <= if |rows| < 253 then |rows| + 1 else 253
  {
    MaximaOfSequential(rows);
    var rows' := Handle(rows, req).0;
    if req.Remove? {
      RemoveKeeps(rows, req.id);
    } else if |rows'| == |rows| + 1 {
      var row := rows'[|rows|];
      AppendKeeps(rows, row);
      if LiveNamesDiffer(rows) {
        NameKeeps(rows, row);
      }
    }
    hide Sequential, LiveNamesDiffer, IdTaken, NameTaken, Marked, GuestIP, MaxPort, MaxOctet;
    assert Extends(rows, rows);
  }

  /** The name or the id is not to be had: a row that is not deleted has the name, or any row the id. */
  ghost predicate Clashes(rows: seq<Row>, name: string, id: string) {
    exists k :: 0 <= k < |rows| && ((rows[k].name == name && !rows[k].deleted) || rows[k].id == id)
  }

  /** A create is refused for want of addresses exactly when 253 rows exist; otherwise for a clash
      exactly when a row that is not deleted has the name, or any row the id; otherwise it adds one row
      exactly when the insert goes through, whatever becomes of the boot. */
  lemma CreateTakesTheNextAddress(rows: seq<Row>, req: Request)
    requires Sequential(rows) && req.Create?
    ensures Handle(rows, req).1 == 507 <==> |rows| == 253
    ensures Handle(rows, req).1 == 409 <==> |rows| < 253 && Clashes(rows, req.name, req.id)
    ensures |Handle(rows, req).0| == |rows| + 1 <==>
            |rows| < 253 && !Clashes(rows, req.name, req.id) && req.insertOk
    ensures |Handle(rows, req).0| == |rows| + 1 ==>
              && Handle(rows, req).0[..|rows|] == rows
              && Handle(rows, req).0[|rows|].guestIP == GuestIP(|rows| + 2)
              && Handle(rows, req).0[|rows|].port == 40000 + |rows|
    ensures |Handle(rows, req).0| != |rows| + 1 ==> Handle(rows, req).0 == rows
  {
    MaximaOfSequential(rows);
    ClashesAreTaken(rows, req.name, req.id);
  }

  lemma ClashesAreTaken(rows: seq<Row>, name: string, id: string)
    ensures Clashes(rows, name, id) <==> NameTaken(rows, name) || IdTaken(rows, id)
  {
    if NameTaken(rows, name) {
      var i :| 0 <= i < |rows| && rows[i].name == name && !rows[i].deleted;
    }
    if IdTaken(rows, id) {
      var i :| 0 <= i < |rows| && rows[i].id == id;
    }
  }

  /** The name of a row that is not deleted is refused; once that row has been deleted the same create
      succeeds, if there is room and its id is new. */
  lemma NameIsFreeAgain(rows: seq<Row>, k: nat, id: string)
    requires Sequential(rows) && LiveNamesDiffer(rows) && |rows| < 253
    requires k < |rows| && !rows[k].deleted && forall i | 0 <= i < |rows| :: rows[i].id != id
    ensures var create := Create(rows[k].name, id, true, true, true);
            var (after, status) := Handle(rows, Remove(rows[k].id, true, true));
            && Handle(rows, create) == (rows, 409)
            && status == 200 && after == rows[k := rows[k].(state := Stopped, deleted := true)]
            && Handle(after, create).1 == 201
            && Handle(after, create).0
               == after + [Row(id, rows[k].name, Running, GuestIP(|rows| + 2), 40000 + |rows|, false)]
  {
    var create := Create(rows[k].name, id, true, true, true);
    var after := Handle(rows, Remove(rows[k].id, true, true)).0;
    HandleKeeps(rows, Remove(rows[k].id, true, true));
    MaximaOfSequential(rows);
    MaximaOfSequential(after);
    assert after == rows[k := rows[k].(state := Stopped, deleted := true)];
  }

  lemma {:induction false} HistoryKeeps(rows: seq<Row>, reqs: seq<Request>)
    requires Sequential(rows)
    ensures Sequential(After(rows, reqs)) && Extends(rows, After(rows, reqs))
    ensures LiveNamesDiffer(rows) ==> LiveNamesDiffer(After(rows, reqs))
    decreases |reqs|
  {
    if reqs != [] {
      HandleKeeps(rows, reqs[0]);
      HistoryKeeps(Handle(rows, reqs[0]).0, reqs[1..]);
    }
  }

  /** Over any serial history from the empty table, at most 253 rows ever exist; every row's octet
      is in 2..254 and its port 39998 more; and no two rows, deleted or not, share an address, a MAC
      address or a port. */
  lemma NeverReissued(reqs: seq<Request>)
    ensures |After([], reqs)| <= 253
    ensures forall row | row in After([], reqs) ::
              exists octet: nat :: 2 <= octet <= 254 && row.guestIP == GuestIP(octet) && row.port - octet == 39998
    ensures forall i, j | 0 <= i < j < |After([], reqs)| ::
              var a, b := After([], reqs)[i], After([], reqs)[j];
              && a.guestIP != b.guestIP && a.port != b.port && MacFromIP(a.guestIP) != MacFromIP(b.guestIP)
  {
    HistoryKeeps([], reqs);
    var rows := After([], reqs);
    forall row | row in rows
      ensures exists octet: nat :: 2 <= octet <= 254 && row.guestIP == GuestIP(octet) && row.port - octet == 39998
    {
      var k :| 0 <= k < |rows| && rows[k] == row;
      assert row.guestIP == GuestIP(k + 2) && row.port - (k + 2) == 39998;
    }
    forall i, j | 0 <= i < j < |rows|
      ensures rows[i].guestIP != rows[j].guestIP && rows[i].port != rows[j].port
      ensures MacFromIP(rows[i].guestIP) != MacFromIP(rows[j].guestIP)
    {
      MacsDiffer(i + 2, j + 2);
    }
  }

  /** Over any serial history no two rows that are not deleted share a name. */
  lemma NamesAreUnique(reqs: seq<Request>)
    ensures forall i, j | 0 <= i < j < |After([], reqs)| ::
              var a, b := After([], reqs)[i], After([], reqs)[j];
              !a.deleted && !b.deleted ==> a.name != b.name
  {
    HistoryKeeps([], reqs);
  }

  /** The address space never comes back: after 253 creates every later one is refused,
      however many instances have been deleted. */
  lemma {:induction false} FullForever(rows: seq<Row>, reqs: seq<Request>, create: Request)
    requires Sequential(rows) && |rows| == 253 && create.Create?
    ensures Handle(After(rows, reqs), create) == (After(rows, reqs), 507)
    decreases |reqs|
  {
    if reqs == [] {
      HandleKeeps(rows, create);
    } else {
      HandleKeeps(rows, reqs[0]);
      FullForever(Handle(rows, reqs[0]).0, reqs[1..], create);
    }
  }

  /** What the instance-manager is sent, each row's id, address and port, is what its invariant asks
      for, as long as no two ids end in the same eight characters. */
  lemma TableIsARegistry(reqs: seq<Request>, reg: map<string, Spec>)
    requires forall i, j | 0 <= i < j < |After([], reqs)| ::
               TapName(After([], reqs)[i].id) != TapName(After([], reqs)[j].id)
    requires forall id | id in reg :: exists k | 0 <= k < |After([], reqs)| ::
                 var row := After([], reqs)[k]; row.id == id && reg[id] == Spec(row.id, row.guestIP, row.port)
    ensures Registry(reg)
    ensures forall id | id in reg :: exists octet: nat ::
                2 <= octet <= 254 && reg[id].guestIP == GuestIP(octet) && reg[id].sshHostPort == 39998 + octet
  {
    HistoryKeeps([], reqs);
    var rows := After([], reqs);
    forall id | id in reg
      ensures exists octet: nat ::
                2 <= octet <= 254 && reg[id].guestIP == GuestIP(octet) && reg[id].sshHostPort == 39998 + octet
    {
      var k :| 0 <= k < |rows| && rows[k].id == id && reg[id] == Spec(rows[k].id, rows[k].guestIP, rows[k].port);
      assert reg[id].guestIP == GuestIP(k + 2);
    }
    forall a, b | a in reg && b in reg && a != b
      ensures reg[a].sshHostPort != reg[b].sshHostPort && TapName(a) != TapName(b)
    {
      var i :| 0 <= i < |rows| && rows[i].id == a && reg[a] == Spec(rows[i].id, rows[i].guestIP, rows[i].port);
      var j :| 0 <= j < |rows| && rows[j].id == b && reg[b] == Spec(rows[j].id, rows[j].guestIP, rows[j].port);
      if i < j {
      } else {
        assert j < i;
      }
    }
  }

  class InstanceTable {
    var rows: seq<Row>

    ghost predicate Valid()
      reads this
    {
      Sequential(rows) && LiveNamesDiffer(rows)
    }

    constructor ()
      ensures Valid() && rows == []
    {
      rows := [];
    }

    /** Creating an instance: the row keeps its address whatever becomes of the boot. */
    method Post(name: string, id: string, insertOk: bool, managerOk: bool, updateOk: bool) returns (status: int)
      requires Valid()
      modifies this
      ensures Valid() && Extends(old(rows), rows)
      ensures (rows, status) == Handle(old(rows), Create(name, id, insertOk, managerOk, updateOk))
      ensures status == 507 <==> |old(rows)| == 253
      ensures status == 409 <==> |old(rows)| < 253 && Clashes(old(rows), name, id)
      ensures status == 201 <==>
              |old(rows)| < 253 && !Clashes(old(rows), name, id) && insertOk && managerOk && updateOk
      ensures status == 502 <==>
              |old(rows)| < 253 && !Clashes(old(rows), name, id) && insertOk && !managerOk && updateOk
      ensures status == 500 <==> |old(rows)| < 253 && !Clashes(old(rows), name, id) && !(insertOk && updateOk)
      ensures rows == if |old(rows)| < 253 && !Clashes(old(rows), name, id) && insertOk
                      then old(rows) + [Row(id, name,
                                            if status == 201 then Running
                                            else if status == 502 then Errored else Creating,
                                            GuestIP(|old(rows)| + 2), 40000 + |old(rows)|, false)]
                      else old(rows)
    {
      MaximaOfSequential(rows);
      HandleKeeps(rows, Create(name, id, insertOk, managerOk, updateOk));
      ClashesAreTaken(rows, name, id);
      var port, octetMax := MaxPort(rows) + 1, MaxOctet(rows);
      if octetMax.None? {
        return 500;
      }
      var octet := octetMax.value + 1;
      if octet > 254 {
        return 507;
      }
      if NameTaken(rows, name) || IdTaken(rows, id) {
        return 409;
      }
      if !insertOk {
        return 500;
      }
      var n := |rows|;
      rows := rows + [Row(id, name, Creating, GuestIP(octet), port, false)];
      if !updateOk {
        return 500;
      }
      if !managerOk {
        rows := rows[n := rows[n].(state := Errored)];
        assert rows == old(rows) + [Row(id, name, Errored, GuestIP(octet), port, false)];
        return 502;
      }
      rows := rows[n := rows[n].(state := Running)];
      assert rows == old(rows) + [Row(id, name, Running, GuestIP(octet), port, false)];
      status := 201;
    }

    /** Deleting one: the row stays, marked, so its address is never given out again. */
    method Delete(id: string, managerOk: bool, updateOk: bool) returns (status: int)
      requires Valid()
      modifies this
      ensures Valid() && Extends(old(rows), rows) && |rows| == |old(rows)|
      ensures (rows, status) == Handle(old(rows), Remove(id, managerOk, updateOk))
      ensures status == 404 <==> forall k | 0 <= k < |rows| :: old(rows)[k].id != id
      ensures status == 502 <==> !managerOk && exists k :: 0 <= k < |rows| && old(rows)[k].id == id
      ensures status == 500 <==> managerOk && !updateOk && exists k :: 0 <= k < |rows| && old(rows)[k].id == id
      ensures status == 200 <==> managerOk && updateOk && exists k :: 0 <= k < |rows| && old(rows)[k].id == id
      ensures forall k | 0 <= k < |rows| ::
                rows[k] == if status == 200 && old(rows)[k].id == id && !old(rows)[k].deleted
                           then old(rows)[k].(state := Stopped, deleted := true) else old(rows)[k]
    {
      HandleKeeps(rows, Remove(id, managerOk, updateOk));
      if !IdTaken(rows, id) {
        return 404;
      }
      if !managerOk {
        return 502;
      }
      if !updateOk {
        return 500;
      }
      rows := Marked(rows, id);
      status := 200;
    }
  }
}
