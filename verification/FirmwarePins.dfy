/** Where whole lists of writes, and whole iterations, leave the ten output pins of the firmware. */
module FirmwarePins {
  import opened Coaster
  import opened Firmware

  lemma {:induction false} DriveAllAppend(b: Board, ws: seq<Write>, us: seq<Write>)
    ensures DriveAll(b, ws + us) == DriveAll(DriveAll(b, ws), us)
  {
    hide Drive;
    if us == [] {
      assert ws + us == ws;
    } else {
      assert (ws + us)[..|ws + us| - 1] == ws + us[..|us| - 1];
      DriveAllAppend(b, ws, us[..|us| - 1]);
    }
  }

  lemma ServoPairs(b: Board, v: byte)
    ensures DriveAll(b, [AnalogWrite(PreStation1, v), AnalogWrite(PreStation2, v)])
            == b.(preStation1 := v, preStation2 := v)
    ensures DriveAll(b, [AnalogWrite(Ride1, v), AnalogWrite(Ride2, v)]) == b.(ride1 := v, ride2 := v)
  {
    DriveTwo(b, AnalogWrite(PreStation1, v), AnalogWrite(PreStation2, v));
    DriveTwo(b, AnalogWrite(Ride1, v), AnalogWrite(Ride2, v));
  }

  lemma DriveTwo(b: Board, w: Write, u: Write)
    ensures DriveAll(b, [w, u]) == Drive(Drive(b, w), u)
  {
    hide Drive;
    assert [w, u][..1] == [w];
    assert [w][..0] == [];
    assert DriveAll(b, [w]) == Drive(DriveAll(b, []), w);
  }

  lemma DriveFive(b: Board, ws: seq<Write>, u: Write)
    requires |ws| == 4
    ensures DriveAll(b, ws + [u]) == Drive(Drive(Drive(Drive(Drive(b, ws[0]), ws[1]), ws[2]), ws[3]), u)
  {
    hide Drive;
    var us := ws + [u];
    assert us[..4] == ws;
    assert ws[..3][..2] == ws[..2] && ws[..2][..1] == ws[..1] && ws[..1][..0] == [];
    assert DriveAll(b, ws[..1]) == Drive(b, ws[0]);
    assert DriveAll(b, ws[..2]) == Drive(Drive(b, ws[0]), ws[1]);
    assert DriveAll(b, ws[..3]) == Drive(Drive(Drive(b, ws[0]), ws[1]), ws[2]);
  }

  lemma MotorDrives(b: Board, v: byte)
    ensures DriveAll(b, STATION_FORWARD_A + [AnalogWrite(DcStation, v)])
            == b.(aForward := true, aBackward := false, dcStation := v)
    ensures DriveAll(b, HILL_FORWARD_B + [AnalogWrite(DcHill, v)])
            == b.(bForward := false, bBackward := true, dcHill := v)
  {
    hide DriveAll;
    DriveFive(b, STATION_FORWARD_A, AnalogWrite(DcStation, v));
    DriveFive(b, HILL_FORWARD_B, AnalogWrite(DcHill, v));
  }

  // -------------------------------------------------------------------------- MAINTENANCE

  predicate StationStarts(s: Samples) {
    s.liftStart && s.stationSwitchStart
  }

  predicate HillStarts(s: Samples) {
    s.liftStart && s.hillSwitchStart && !s.stationSwitchStart
  }

  predicate StationStops(s: Samples) {
    s.rideStop || (s.liftStop && s.stationSwitchStop)
  }

  predicate HillStops(s: Samples) {
    s.rideStop || (s.liftStop && s.hillSwitchStop && !s.stationSwitchStop)
  }

  /**
   * Maintenance, pin by pin: the brakes are open; a motor runs at full power, its bridge forward, if
   * its start is pressed; else it is off if its stop is pressed, and left alone otherwise. The
   * station's switch comes before the hill's.
   */
  predicate Maintained(before: Board, after: Board, s: Samples) {
    && after.ride1 == after.ride2 == 250 && after.preStation1 == after.preStation2 == 180
    && after.dcStation == (if StationStarts(s) then 255 else if StationStops(s) then 0 else before.dcStation)
    && after.dcHill == (if HillStarts(s) then 255 else if HillStops(s) then 0 else before.dcHill)
    && (after.aForward <==> StationStarts(s) || before.aForward)
    && (after.aBackward <==> !StationStarts(s) && before.aBackward)
    && (after.bForward <==> !HillStarts(s) && before.bForward)
    && (after.bBackward <==> HillStarts(s) || before.bBackward)
  }

  lemma DriveNone(b: Board)
    ensures DriveAll(b, []) == b
  {
  }

  lemma DriveOne(b: Board, w: Write)
    ensures DriveAll(b, [w]) == Drive(b, w)
  {
    assert [w][..0] == [];
    hide Drive;
  }

  lemma BrakesOpened(b: Board)
    ensures DriveAll(b, [AnalogWrite(Ride1, 250), AnalogWrite(Ride2, 250)]
                        + [AnalogWrite(PreStation1, 180), AnalogWrite(PreStation2, 180)])
            == b.(ride1 := 250, ride2 := 250, preStation1 := 180, preStation2 := 180)
  {
    DriveAllAppend(b, [AnalogWrite(Ride1, 250), AnalogWrite(Ride2, 250)],
                   [AnalogWrite(PreStation1, 180), AnalogWrite(PreStation2, 180)]);
    ServoPairs(b, 250);
    ServoPairs(b.(ride1 := 250, ride2 := 250), 180);
    hide DriveAll;
  }

  // What the three buttons make of the motors.

  lemma RideStopped(b: Board, s: Samples)
    ensures DriveAll(b, RideStopWrites(s))
            == b.(dcStation := if s.rideStop then 0 else b.dcStation, dcHill := if s.rideStop then 0 else b.dcHill)
  {
    DriveNone(b);
    DriveTwo(b, AnalogWrite(DcStation, 0), AnalogWrite(DcHill, 0));
    hide DriveAll;
  }

  lemma LiftStopped(b: Board, s: Samples)
    ensures DriveAll(b, LiftStopWrites(s))
            == b.(dcStation := if s.liftStop && s.stationSwitchStop then 0 else b.dcStation,
                  dcHill := if s.liftStop && s.hillSwitchStop && !s.stationSwitchStop then 0 else b.dcHill)
  {
    DriveNone(b);
    DriveOne(b, AnalogWrite(DcStation, 0));
    DriveOne(b, AnalogWrite(DcHill, 0));
    hide DriveAll;
  }

  lemma LiftStarted(b: Board, s: Samples)
    ensures DriveAll(b, LiftStartWrites(s))
            == if StationStarts(s) then b.(aForward := true, aBackward := false, dcStation := 255)
               else if HillStarts(s) then b.(bForward := false, bBackward := true, dcHill := 255)
               else b
  {
    DriveNone(b);
    MotorDrives(b, 255);
    hide DriveAll;
  }

  lemma InFour(b: Board, ps: seq<Write>, qs: seq<Write>, rs: seq<Write>, us: seq<Write>)
    ensures DriveAll(b, ps + qs + rs + us) == DriveAll(DriveAll(DriveAll(DriveAll(b, ps), qs), rs), us)
  {
    hide DriveAll;
    DriveAllAppend(b, ps + qs + rs, us);
    DriveAllAppend(b, ps + qs, rs);
    DriveAllAppend(b, ps, qs);
  }

  lemma MaintenanceInSteps(b: Board, s: Samples)
    ensures var brakes := b.(ride1 := 250, ride2 := 250, preStation1 := 180, preStation2 := 180);
            DriveAll(b, MaintenanceWrites(s))
            == DriveAll(DriveAll(DriveAll(brakes, RideStopWrites(s)), LiftStopWrites(s)), LiftStartWrites(s))
  {
    var servos := [AnalogWrite(Ride1, 250), AnalogWrite(Ride2, 250)]
                  + [AnalogWrite(PreStation1, 180), AnalogWrite(PreStation2, 180)];
    assert MaintenanceWrites(s) == servos + RideStopWrites(s) + LiftStopWrites(s) + LiftStartWrites(s) by {
      hide RideStopWrites, LiftStopWrites, LiftStartWrites;
    }
    hide DriveAll, MaintenanceWrites, LiftStopWrites, LiftStartWrites, RideStopWrites;
    BrakesOpened(b);
    InFour(b, servos, RideStopWrites(s), LiftStopWrites(s), LiftStartWrites(s));
  }

  lemma MaintenanceDrives(b: Board, s: Samples)
    ensures Maintained(b, DriveAll(b, MaintenanceWrites(s)), s)
  {
    var brakes := b.(ride1 := 250, ride2 := 250, preStation1 := 180, preStation2 := 180);
    var halted := DriveAll(brakes, RideStopWrites(s));
    hide DriveAll, MaintenanceWrites, RideStopWrites, LiftStopWrites, LiftStartWrites;
    MaintenanceInSteps(b, s);
    RideStopped(brakes, s);
    LiftStopped(halted, s);
    LiftStarted(DriveAll(halted, LiftStopWrites(s)), s);
  }

  /**
   * Every iteration in MAINTENANCE that does not hang, from any board and whatever is on the line:
   * where it leaves every pin. No message it collects matters.
   */
  lemma MaintenancePins(p: Progress, slot: Slot)
    requires !p.stuck && ModeOf(p.latches, slot.samples) == MAINTENANCE && Iterate(p.latches, p.rx, slot).Done?
    ensures Maintained(p.board, Advance(p, slot).board, slot.samples)
  {
    MaintenanceDrives(p.board, slot.samples);
    hide DriveAll, MaintenanceWrites, Maintained, Collect, Tick, ModeOf, ReplyOf;
  }

  // --------------------------------------------------------------- a powered motor can turn

  /** A motor that is given power has its bridge enabled, forward and not both ways. */
  predicate MotorsReady(b: Board) {
    (b.dcStation != 0 ==> b.aForward && !b.aBackward) && (b.dcHill != 0 ==> b.bBackward && !b.bForward)
  }

  lemma ActuatorsStayReady(b: Board, message: seq<byte>)
    requires MotorsReady(b)
    ensures MotorsReady(DriveAll(b, ActuatorWrites(message)))
  {
    var v := At(message, 1);
    DriveNone(b);
    ServoPairs(b, v);
    MotorDrives(b, v);
    hide DriveAll, At;
  }

  lemma OneStaysReady(p: Progress, slot: Slot)
    requires MotorsReady(p.board)
    ensures MotorsReady(Advance(p, slot).board)
  {
    var o := Iterate(p.latches, p.rx, slot);
    if !p.stuck && o.Done? {
      DriveNone(p.board);
      MaintenanceDrives(p.board, slot.samples);
      if o.message.Some? {
        ActuatorsStayReady(p.board, o.message.value);
      }
      hide DriveAll, MaintenanceWrites, ActuatorWrites, Collect, Tick, ModeOf, ReplyOf, At;
    }
  }

  /**
   * Over every run, on any bytes, in any modes, MAINTENANCE included: at the end of each iteration
   * every motor that is given power has its bridge enabled forward, as it does, with none, after
   * `setup`.
   */
  lemma {:induction false} PoweredMotorsTurn(p: Progress, slots: seq<Slot>)
    requires MotorsReady(p.board)
    ensures MotorsReady(RunFirmware(p, slots).board) && MotorsReady(AFTER_SETUP)
    decreases slots
  {
    if slots != [] {
      OneStaysReady(p, slots[0]);
      hide Advance, MotorsReady;
      PoweredMotorsTurn(Advance(p, slots[0]), slots[1..]);
    }
    assert MotorsReady(AFTER_SETUP);
  }
}
