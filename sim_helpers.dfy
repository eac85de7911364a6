/** Two small helpers of the interferometer simulation driver: the field
    width used to print block, time, chunk and channel counters, and the
    choice of the Jones matrices that are joined before correlation. */
module SimHelpers {
  import opened MemTypes

  /** The number of decimal digits of `v`. */
  function Digits(v: nat): (n: nat)
    ensures n >= 1
  {
    if v < 10 then 1 else 1 + Digits(v / 10)
  }

  /** `disp_width_`: the printing width of an unsigned counter. */
  function DispWidth(v: nat): (w: nat)
    ensures 1 <= w <= 6
  {
    if v >= 100000 then 6
    else if v >= 10000 then 5
    else if v >= 1000 then 4
    else if v >= 100 then 3
    else if v >= 10 then 2
    else 1
  }

  /** Below 100000 the width is the number of decimal digits; from there on
      it stays at 6. */
  lemma DispWidthDigits(v: nat)
    ensures v < 100000 ==> DispWidth(v) == Digits(v)
    ensures v >= 100000 ==> DispWidth(v) == 6
  {
    if v < 100000 && v >= 10 {
      var q := v / 10;
      assert Digits(v) == 1 + Digits(q);
      if q >= 10 {
        var q2 := q / 10;
        assert Digits(q) == 1 + Digits(q2);
        if q2 >= 10 {
          var q3 := q2 / 10;
          assert Digits(q2) == 1 + Digits(q3);
          if q3 >= 10 {
            assert Digits(q3) == 1 + Digits(q3 / 10);
          }
        }
      }
    }
  }

  /** A larger number never has fewer digits. */
  lemma {:induction false} DigitsMonotone(a: nat, b: nat)
    requires a <= b
    ensures Digits(a) <= Digits(b)
  {
    if a >= 10 {
      DigitsMonotone(a / 10, b / 10);
    }
  }

  /** The driver prints counters `1 .. n` in a field of width
      `DispWidth(n)`: every one of them fits, as long as `n` has at most six
      digits. */
  lemma CounterFits(v: nat, n: nat)
    requires v <= n < 1000000
    ensures Digits(v) <= DispWidth(n)
  {
    DigitsMonotone(v, n);
    DispWidthDigits(n);
    if n >= 100000 {
      DigitsMonotone(n, 999999);
      assert Digits(999999) == 6 by {
        assert Digits(9) == 1;
        assert Digits(99) == 2;
        assert Digits(999) == 3;
        assert Digits(9999) == 4;
        assert Digits(99999) == 5;
      }
    }
  }

  /** The Jones work arrays of a device. */
  datatype JonesName = J | K | E | R

  /** The visibility type: complex of the telescope's precision, and a
      matrix type in full polarisation mode. */
  function VisType(prec: Precision, polFull: bool): MemType
  {
    MemType(prec, true, polFull)
  }

  /** The Jones arrays `set_up_device_data_` creates for visibility type
      `vistype`, with their element types: `J` and `E` of the visibility
      type, `K` complex scalar, and `R` only for a matrix visibility type. */
  function DeviceJones(vistype: MemType): map<JonesName, MemType>
  {
    var base := map[J := vistype, E := vistype, K := MemType(vistype.precision, true, false)];
    if vistype.matrix then base[R := vistype] else base
  }

  /** The operands of `oskar_jones_join` in `sim_baselines_`: `K`, and `R`
      when the device has it, else `E`. */
  function JoinOperands(hasR: bool): (JonesName, JonesName)
  {
    (K, if hasR then R else E)
  }

  /** On a device set up for `prec` and `polFull`, the join's operands are
      both allocated; the second has the type of `J` and is `R` exactly in
      full polarisation mode; `K` is a scalar. */
  lemma JoinOperandsAllocated(prec: Precision, polFull: bool)
    ensures var m := DeviceJones(VisType(prec, polFull));
      var ops := JoinOperands(R in m);
      && ops.0 == K && ops.0 in m && !m[K].matrix
      && ops.1 in m && m[ops.1] == m[J]
      && (ops.1 == R <==> polFull)
  {
  }
}
