/** Small vocabulary shared by every module: optional values, joint vectors and real clamping. */
module Basics {

  datatype Option<+T> = None | Some(value: T)

  /** The arm's joints, and one number for each. */
  const JOINTS: nat := 7

  type Vec = v: seq<real> | |v| == JOINTS witness seq(JOINTS, _ => 0.0)

  function Zero(): Vec { seq(JOINTS, _ => 0.0) }

  function Abs(x: real): real { if x < 0.0 then -x else x }

  function Min(x: real, y: real): real { if y < x then y else x }

  function Max(x: real, y: real): real { if x < y then y else x }

  /** std::clamp. */
  function Clamp(x: real, lo: real, hi: real): real
    requires lo <= hi
  {
    if x < lo then lo else if hi < x then hi else x
  }

  lemma Positive(x: real, y: real)
    requires x > 0.0 && y > 0.0
    ensures x * y > 0.0
  {
  }
}
