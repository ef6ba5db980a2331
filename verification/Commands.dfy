/**
 * The nine console commands that may be queued offline, and the HTTP request each
 * one turns into: the route constant of the server's handler together with the path
 * parameters and the JSON body that the handler hands to the idempotency layer.
 */
module Commands {
  import opened Options

  datatype Json = JNull | JInt(n: int) | JStr(s: string)

  type JsonObject = map<string, Json>

  datatype MovementKind = In | Out

  datatype Command =
    | ShiftOpen(clubId: int, openingCash: int)
    | ShiftMovement(clubId: int, shiftId: int, kind: MovementKind, amount: int, reason: string)
    | ShiftClose(clubId: int, shiftId: int, countedCash: int)
    | ExpenseCreate(clubId: int, spentOn: string, category: string, amount: int,
                    note: Option<string>, payMethod: Option<string>, expenseShift: Option<int>)
    | BookingConfirm(clubId: int, bookingId: int)
    | BookingReject(clubId: int, bookingId: int, rejectReason: Option<string>)
    | BookingCancel(clubId: int, bookingId: int, cancelReason: Option<string>)
    | BookingExtend(clubId: int, bookingId: int, extraHours: int, expectedVersion: Option<int>)
    | BillClose(clubId: int, bookingId: int, paidAmount: int, shortfall: Option<string>,
                overpay: Option<string>, expectedTotal: int)

  /** What reaches a handler: its route constant, the path parameters and the body. */
  datatype Wire = Wire(clubId: int, route: string, path: JsonObject, body: JsonObject)

  function OptStr(o: Option<string>): Json {
    if o.Some? then JStr(o.value) else JNull
  }

  function OptInt(o: Option<int>): Json {
    if o.Some? then JInt(o.value) else JNull
  }

  function RouteOf(c: Command): string {
    match c
    case ShiftOpen(_, _) => "POST /shifts"
    case ShiftMovement(_, _, _, _, _) => "POST /shifts/{shift_id}/movements"
    case ShiftClose(_, _, _) => "POST /shifts/{shift_id}/close"
    case ExpenseCreate(_, _, _, _, _, _, _) => "POST /expenses"
    case BookingConfirm(_, _) => "POST /bookings/{booking_id}/confirm"
    case BookingReject(_, _, _) => "POST /bookings/{booking_id}/reject"
    case BookingCancel(_, _, _) => "POST /bookings/{booking_id}/cancel"
    case BookingExtend(_, _, _, _) => "POST /bookings/{booking_id}/extend"
    case BillClose(_, _, _, _, _, _) => "POST /bookings/{booking_id}/close"
  }

  function PathOf(c: Command): JsonObject {
    match c
    case ShiftOpen(_, _) => map[]
    case ExpenseCreate(_, _, _, _, _, _, _) => map[]
    case ShiftMovement(_, s, _, _, _) => map["shift_id" := JInt(s)]
    case ShiftClose(_, s, _) => map["shift_id" := JInt(s)]
    case BookingConfirm(_, b) => map["booking_id" := JInt(b)]
    case BookingReject(_, b, _) => map["booking_id" := JInt(b)]
    case BookingCancel(_, b, _) => map["booking_id" := JInt(b)]
    case BookingExtend(_, b, _, _) => map["booking_id" := JInt(b)]
    case BillClose(_, b, _, _, _, _) => map["booking_id" := JInt(b)]
  }

  function BodyOf(c: Command): JsonObject {
    match c
    case ShiftOpen(_, cash) => map["opening_cash" := JInt(cash)]
    case ShiftMovement(_, _, k, a, r) =>
      map["kind" := JStr(if k.In? then "IN" else "OUT"), "amount" := JInt(a), "reason" := JStr(r)]
    case ShiftClose(_, _, counted) => map["counted_cash" := JInt(counted)]
    case ExpenseCreate(_, day, cat, a, note, payMethod, shift) =>
      map["spent_on" := JStr(day), "category" := JStr(cat), "amount" := JInt(a),
          "note" := OptStr(note), "method" := OptStr(payMethod), "shift_id" := OptInt(shift)]
    case BookingConfirm(_, _) => map[]
    case BookingReject(_, _, r) => map["reason" := OptStr(r)]
    case BookingCancel(_, _, r) => map["reason" := OptStr(r)]
    case BookingExtend(_, _, h, v) => map["extra_hours" := JInt(h), "expected_version" := OptInt(v)]
    case BillClose(_, _, paid, short, over, _) =>
      map["payment_method" := JStr("CASH"), "paid_amount" := JInt(paid),
          "shortfall_reason" := OptStr(short), "overpay_reason" := OptStr(over)]
  }

  function WireOf(c: Command): Wire {
    Wire(c.clubId, RouteOf(c), PathOf(c), BodyOf(c))
  }

  // ── What the handlers read ───────────────────────────────────────────────

  function IntField(o: JsonObject, name: string): Option<int> {
    if name in o && o[name].JInt? then Some(o[name].n) else None
  }

  function StrField(o: JsonObject, name: string): Option<string> {
    if name in o && o[name].JStr? then Some(o[name].s) else None
  }

  /** A field with the default null: null, or missing, is no value; anything else of a wrong type
      is no reading. */
  function IntOrNull(o: JsonObject, name: string): Option<Option<int>> {
    if name !in o || o[name].JNull? then Some(None) else if o[name].JInt? then Some(Some(o[name].n)) else None
  }

  function StrOrNull(o: JsonObject, name: string): Option<Option<string>> {
    if name !in o || o[name].JNull? then Some(None) else if o[name].JStr? then Some(Some(o[name].s)) else None
  }

  function ReadMovement(clubId: int, shift: Option<int>, body: JsonObject): Option<Command> {
    var kind, amount, reason := StrField(body, "kind"), IntField(body, "amount"), StrField(body, "reason");
    if shift.None? || amount.None? || reason.None? then None
    else if kind == Some("IN") then Some(ShiftMovement(clubId, shift.value, In, amount.value, reason.value))
    else if kind == Some("OUT") then Some(ShiftMovement(clubId, shift.value, Out, amount.value, reason.value))
    else None
  }

  function ReadExpense(clubId: int, body: JsonObject): Option<Command> {
    var day, category, amount := StrField(body, "spent_on"), StrField(body, "category"), IntField(body, "amount");
    var note, payMethod, shift := StrOrNull(body, "note"), StrOrNull(body, "method"), IntOrNull(body, "shift_id");
    if day.None? || category.None? || amount.None? || note.None? || payMethod.None? || shift.None? then None
    else Some(ExpenseCreate(clubId, day.value, category.value, amount.value, note.value, payMethod.value, shift.value))
  }

  function ReadExtension(clubId: int, booking: Option<int>, body: JsonObject): Option<Command> {
    var hours, version := IntField(body, "extra_hours"), IntOrNull(body, "expected_version");
    if booking.None? || hours.None? || version.None? then None
    else Some(BookingExtend(clubId, booking.value, hours.value, version.value))
  }

  /** A bill paid in cash; the console closes no other kind offline. */
  function ReadBill(clubId: int, booking: Option<int>, body: JsonObject): Option<Command> {
    var payMethod, paid := StrField(body, "payment_method"), IntField(body, "paid_amount");
    var short, over := StrOrNull(body, "shortfall_reason"), StrOrNull(body, "overpay_reason");
    if booking.None? || payMethod != Some("CASH") || paid.None? || short.None? || over.None? then None
    else Some(BillClose(clubId, booking.value, paid.value, short.value, over.value, 0))
  }

  /** What the server takes a request for: the handler behind the route, and the fields that its
      path and its schema name. The total that a cashier saw is not among them and reads 0. */
  function ReadRequest(clubId: int, route: string, path: JsonObject, body: JsonObject): Option<Command> {
    var shift, booking := IntField(path, "shift_id"), IntField(path, "booking_id");
    if route == "POST /shifts" then
      var cash := IntField(body, "opening_cash");
      if cash.None? then None else Some(ShiftOpen(clubId, cash.value))
    else if route == "POST /shifts/{shift_id}/movements" then ReadMovement(clubId, shift, body)
    else if route == "POST /shifts/{shift_id}/close" then
      var counted := IntField(body, "counted_cash");
      if shift.None? || counted.None? then None else Some(ShiftClose(clubId, shift.value, counted.value))
    else if route == "POST /expenses" then ReadExpense(clubId, body)
    else if route == "POST /bookings/{booking_id}/confirm" then
      if booking.None? then None else Some(BookingConfirm(clubId, booking.value))
    else if route == "POST /bookings/{booking_id}/reject" then
      var reason := StrOrNull(body, "reason");
      if booking.None? || reason.None? then None else Some(BookingReject(clubId, booking.value, reason.value))
    else if route == "POST /bookings/{booking_id}/cancel" then
      var reason := StrOrNull(body, "reason");
      if booking.None? || reason.None? then None else Some(BookingCancel(clubId, booking.value, reason.value))
    else if route == "POST /bookings/{booking_id}/extend" then ReadExtension(clubId, booking, body)
    else if route == "POST /bookings/{booking_id}/close" then ReadBill(clubId, booking, body)
    else None
  }

  function ReadWire(w: Wire): Option<Command> {
    ReadRequest(w.clubId, w.route, w.path, w.body)
  }

  lemma ReadsShift(c: Command)
    requires c.ShiftOpen? || c.ShiftMovement? || c.ShiftClose?
    ensures ReadWire(WireOf(c)) == Some(c)
  {
    hide ReadExpense, ReadExtension, ReadBill;
    assert "IN"[0] != "OUT"[0];
  }

  lemma ReadsExpense(c: Command)
    requires c.ExpenseCreate?
    ensures ReadWire(WireOf(c)) == Some(c)
  {
    hide ReadMovement, ReadExtension, ReadBill;
  }

  lemma ReadsVerdict(c: Command)
    requires c.BookingConfirm? || c.BookingReject? || c.BookingCancel?
    ensures ReadWire(WireOf(c)) == Some(c)
  {
    hide ReadMovement, ReadExpense, ReadExtension, ReadBill;
    var r := RouteOf(c);
    assert r[6] == 'b' && r[29] == (if c.BookingConfirm? then 'o' else if c.BookingReject? then 'e' else 'a');
  }

  lemma ReadsExtension(c: Command)
    requires c.BookingExtend?
    ensures ReadWire(WireOf(c)) == Some(c)
  {
    hide ReadMovement, ReadExpense, ReadBill;
    var r := RouteOf(c);
    assert r[6] == 'b' && r[29] == 'x';
  }

  lemma ReadsBill(c: Command)
    requires c.BillClose?
    ensures ReadWire(WireOf(c)) == Some(c.(expectedTotal := 0))
  {
    hide ReadMovement, ReadExpense, ReadExtension;
    var r := RouteOf(c);
    assert r[6] == 'b' && r[29] == 'l';
  }

  /**
   * The server reads back the very command that the console sent: the handler that its route leads
   * to, its club, its target and every field of its body. Only the total that the cashier saw,
   * compared on the client, stays behind.
   */
  lemma ReadsBack(c: Command)
    ensures ReadWire(WireOf(c)) == Some(if c.BillClose? then c.(expectedTotal := 0) else c)
  {
    hide ReadWire, WireOf;
    match c {
      case ExpenseCreate(_, _, _, _, _, _, _) => ReadsExpense(c);
      case BookingExtend(_, _, _, _) => ReadsExtension(c);
      case BillClose(_, _, _, _, _, _) => ReadsBill(c);
      case BookingConfirm(_, _) => ReadsVerdict(c);
      case BookingReject(_, _, _) => ReadsVerdict(c);
      case BookingCancel(_, _, _) => ReadsVerdict(c);
      case _ => ReadsShift(c);
    }
  }

  /** Two commands that agree on everything the server may read. The total the cashier
      saw is compared on the client before the bill is closed and is never sent. */
  ghost predicate SameForServer(c: Command, d: Command) {
    if c.BillClose? && d.BillClose? then c == d.(expectedTotal := c.expectedTotal) else c == d
  }

  /**
   * Hashing the path together with the body loses nothing: two commands reach the
   * server as the same request exactly when the server could not tell them apart.
   */
  lemma WireInjective(c: Command, d: Command)
    ensures WireOf(c) == WireOf(d) <==> SameForServer(c, d)
  {
    hide ReadWire;
    ReadsBack(c);
    ReadsBack(d);
  }

  function RouteIndex(c: Command): nat {
    match c
    case ShiftOpen(_, _) => 0
    case ShiftMovement(_, _, _, _, _) => 1
    case ShiftClose(_, _, _) => 2
    case ExpenseCreate(_, _, _, _, _, _, _) => 3
    case BookingConfirm(_, _) => 4
    case BookingReject(_, _, _) => 5
    case BookingCancel(_, _, _) => 6
    case BookingExtend(_, _, _, _) => 7
    case BillClose(_, _, _, _, _, _) => 8
  }

  /** The nine route constants are pairwise different. */
  lemma RoutesDiffer(c: Command, d: Command)
    requires RouteOf(c) == RouteOf(d)
    ensures RouteIndex(c) == RouteIndex(d)
  {
    var r, s := RouteOf(c), RouteOf(d);
    assert |r| == |s| && r[6] == s[6];
    assert |r| > 29 ==> r[28] == s[28] && r[29] == s[29];
  }

  /**
   * A hash of the body alone would not do: confirming two different bookings sends the
   * same empty body on the same route.
   */
  lemma BodyAloneIsNotEnough(clubId: int, b1: int, b2: int)
    requires b1 != b2
    ensures var c, d := BookingConfirm(clubId, b1), BookingConfirm(clubId, b2);
            RouteOf(c) == RouteOf(d) && BodyOf(c) == BodyOf(d) && WireOf(c) != WireOf(d)
  {
    var c, d := BookingConfirm(clubId, b1), BookingConfirm(clubId, b2);
    assert PathOf(c)["booking_id"] != PathOf(d)["booking_id"];
  }
}
