/** What a register write program leaves behind when some of its writes fail, and so what the
    code of _send_modbus_command in SMD_Modbus.c does and does not tell. */
module Delivery {
  import opened CArithmetic
  import opened Utilities
  import opened Registers
  import opened Drive
  import opened Modbus

  /** The last value the first k writes, less the dropped ones, put into register r. */
  function LastKept(writes: seq<Write>, dropped: set<nat>, k: nat, r: int): Option<Word>
    requires k <= |writes|
  {
    if k == 0 then None
    else if writes[k - 1].reg == r && k - 1 !in dropped then Some(Uint16(writes[k - 1].value))
    else LastKept(writes, dropped, k - 1, r)
  }

  /** Every register after any number of writes, whichever are dropped. */
  lemma {:induction false} RegisterAfter(d: State, writes: seq<Write>, dropped: set<nat>, k: nat, r: int)
    requires k <= |writes|
    ensures Delivered(d, writes, dropped, k).Reg(r) ==
      match LastKept(writes, dropped, k, r) case Some(v) => v case None => d.Reg(r)
  {
    if k > 0 { RegisterAfter(d, writes, dropped, k - 1, r); }
  }

  /** Write i is kept and the last kept one to its register among the first k. */
  lemma {:induction false} LastWrite(d: State, writes: seq<Write>, dropped: set<nat>, k: nat, i: nat)
    requires i < k <= |writes| && i !in dropped
    requires forall j :: i < j < k && j !in dropped ==> writes[j].reg != writes[i].reg
    ensures Delivered(d, writes, dropped, k).Reg(writes[i].reg) == Uint16(writes[i].value)
    decreases k
  {
    var r := writes[i].reg;
    RegisterAfter(d, writes, dropped, k, r);
    RegisterAfter(d, writes, dropped, k - 1, r);
    if i < k - 1 { LastWrite(d, writes, dropped, k - 1, i); }
  }

  lemma {:induction false} Untouched(d: State, writes: seq<Write>, dropped: set<nat>, k: nat, r: int)
    requires k <= |writes|
    requires forall j :: 0 <= j < k && j !in dropped ==> writes[j].reg != r
    ensures Delivered(d, writes, dropped, k).Reg(r) == d.Reg(r)
  {
    if k > 0 { Untouched(d, writes, dropped, k - 1, r); }
  }

  // ---- what success means ----

  /** The last value a program means to put into register r. */
  function Meant(writes: seq<Write>, r: int): Option<Word> { LastKept(writes, {}, |writes|, r) }

  /** Every register the program names holds the last value it was given. */
  ghost predicate Holds(d: State, writes: seq<Write>) {
    forall r :: Meant(writes, r).Some? ==> d.Reg(r) == Meant(writes, r).value
  }

  /** The last kept write to each register carries the last value meant for it. */
  ghost predicate KeepsLast(writes: seq<Write>, dropped: set<nat>) {
    forall r :: Meant(writes, r).Some? ==> LastKept(writes, dropped, |writes|, r) == Meant(writes, r)
  }

  ghost predicate HoldsFromAnywhere(writes: seq<Write>, dropped: set<nat>) {
    forall d: State :: Holds(Delivered(d, writes, dropped, |writes|), writes)
  }

  /** A drive whose register r holds anything but v. */
  function Other(r: int, v: Word): (d: State)
    ensures d.Reg(r) != v
  {
    State(map[r := if v == 0 then 1 else 0], false, false, [])
  }

  lemma HoldsExactlyWhen(writes: seq<Write>, dropped: set<nat>)
    ensures HoldsFromAnywhere(writes, dropped) <==> KeepsLast(writes, dropped)
  {
    var n := |writes|;
    if KeepsLast(writes, dropped) {
      forall d: State, r | Meant(writes, r).Some?
        ensures Delivered(d, writes, dropped, n).Reg(r) == Meant(writes, r).value
      {
        RegisterAfter(d, writes, dropped, n, r);
      }
    } else {
      var r :| Meant(writes, r).Some? && LastKept(writes, dropped, n, r) != Meant(writes, r);
      var d := Other(r, Meant(writes, r).value);
      RegisterAfter(d, writes, dropped, n, r);
      assert !Holds(Delivered(d, writes, dropped, n), writes);
    }
  }

  /** Sending leaves every named register at its last value, whatever the drive held before. */
  ghost predicate Arrives(l: LinkState, writes: seq<Write>, name: string) {
    forall d: State :: Holds(Send(l.(drive := d), writes, name).drive, writes)
  }

  lemma FirstIsMeant(writes: seq<Write>)
    requires writes != []
    ensures Meant(writes, writes[|writes| - 1].reg).Some?
  {
  }

  lemma ArrivesExactlyWhen(l: LinkState, writes: seq<Write>, name: string)
    requires writes != []
    ensures Arrives(l, writes, name) <==>
      Delivers(name, l.pending) && KeepsLast(writes, l.pending[Deciding(name, l.pending)].dropped)
  {
    if Delivers(name, l.pending) {
      var dropped := l.pending[Deciding(name, l.pending)].dropped;
      HoldsExactlyWhen(writes, dropped);
      assert forall d: State :: Send(l.(drive := d), writes, name).drive == Delivered(d, writes, dropped, |writes|);
    } else {
      var r := writes[|writes| - 1].reg;
      FirstIsMeant(writes);
      var d := Other(r, Meant(writes, r).value);
      assert Send(l.(drive := d), writes, name).drive == d;
    }
  }

  /** The code of a send tells whether its values have arrived exactly when: on the first
      connection, if it came up, the last write to each register was kept (or one carrying the
      same value); and otherwise, no later resending of a stop arrived. */
  lemma ReportIsRightExactlyWhen(l: LinkState, writes: seq<Write>, name: string)
    requires writes != []
    ensures (SendCode(l) == CommandSuccess <==> Arrives(l, writes, name)) <==>
      if ConnectsFirst(l.pending) then KeepsLast(writes, l.pending[0].dropped)
      else !(Delivers(name, l.pending) && KeepsLast(writes, l.pending[Deciding(name, l.pending)].dropped))
  {
    hide KeepsLast, Arrives;
    ArrivesExactlyWhen(l, writes, name);
    assert ConnectsFirst(l.pending) ==> Deciding(name, l.pending) == 0;
  }

  lemma {:induction false} AllDropped(d: State, writes: seq<Write>, dropped: set<nat>, k: nat)
    requires k <= |writes| && forall i :: 0 <= i < k ==> i in dropped
    ensures Delivered(d, writes, dropped, k) == d
  {
    if k > 0 { AllDropped(d, writes, dropped, k - 1); }
  }

  /** For every program there are connections on which it is reported as sent and nothing has
      arrived. */
  lemma SuccessWithoutDelivery(l: LinkState, writes: seq<Write>, name: string)
    requires ConnectsFirst(l.pending) && forall i :: 0 <= i < |writes| ==> i in l.pending[0].dropped
    ensures SendCode(l) == CommandSuccess && Send(l, writes, name).drive == l.drive
  {
    AllDropped(l.drive, writes, l.pending[0].dropped, |writes|);
  }
}
