/**
 Every length of the shift register is maximal in lfsr mode, by the certificates of its own, so every run has the
 period that the tap table promises.
 */
module LfsrCertificates {
  import opened RegisterWord
  import opened ShiftRegister
  import opened RegisterRuns
  import opened RegisterFeedback
  import opened LfsrPeriods
  import A = LfsrLengthsTo16
  import B = LfsrLengthsTo24
  import C = LfsrLengthsTo32

  lemma {:induction false} MaximalTo16(n: nat)
    requires 2 <= n <= 16
    ensures Maximal(n)
  {
    match n {
      case 2 => A.Length2();
      case 3 => A.Length3();
      case 4 => A.Length4();
      case 5 => A.Length5();
      case 6 => A.Length6();
      case 7 => A.Length7();
      case 8 => A.Length8();
      case 9 => A.Length9();
      case 10 => A.Length10();
      case 11 => A.Length11();
      case 12 => A.Length12();
      case 13 => A.Length13();
      case 14 => A.Length14();
      case 15 => A.Length15();
      case 16 => A.Length16();
    }
  }

  lemma {:induction false} MaximalTo24(n: nat)
    requires 17 <= n <= 24
    ensures Maximal(n)
  {
    match n {
      case 17 => B.Length17();
      case 18 => B.Length18();
      case 19 => B.Length19();
      case 20 => B.Length20();
      case 21 => B.Length21();
      case 22 => B.Length22();
      case 23 => B.Length23();
      case 24 => B.Length24();
    }
  }

  lemma {:induction false} MaximalTo32(n: nat)
    requires 25 <= n <= 32
    ensures Maximal(n)
  {
    match n {
      case 25 => C.Length25();
      case 26 => C.Length26();
      case 27 => C.Length27();
      case 28 => C.Length28();
      case 29 => C.Length29();
      case 30 => C.Length30();
      case 31 => C.Length31();
      case 32 => C.Length32();
    }
  }

  /** The table is right: with every length, every non-zero word is back for the first time after 2^N - 1 edges. */
  lemma {:induction false} AllMaximal(n: nat)
    requires 2 <= n <= 32
    ensures Maximal(n)
  {
    if n <= 16 {
      MaximalTo16(n);
    } else if n <= 24 {
      MaximalTo24(n);
    } else {
      MaximalTo32(n);
    }
  }

  /** Every run of lfsr mode from a non-zero word is at that word again exactly at the multiples of 2^N - 1 edges. */
  lemma {:induction false} DocumentedPeriod(r: seq<State>, es: seq<Event>, k: nat)
    requires IsRun(r, es) && k <= |es| && r[0].mode == Lfsr && AnySet(Contents(r[0]))
    ensures Pow2(r[0].length) > 1
    ensures r[k].reg == r[0].reg <==> Edges(r, es, k) % (Pow2(r[0].length) - 1) == 0
  {
    AllMaximal(r[0].length);
    RunReturnsExactly(r, es, k);
  }
}
