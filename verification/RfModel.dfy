/**
 How many physical resource blocks a UE needs (poc_StressTest/common/rf_model.py).
 The spectral efficiency, a logarithm of the SINR in the program, is an input here.
 */
module RfModel {
  import opened Collections

  /** TRAFFIC_PROFILE: two profiles have names; any other text is sized like voice but never capped. */
  datatype Profile = Voip | Data | OtherProfile

  /** What the RU stamps on an uplink: the SINR and the spectral efficiency it stands for. */
  datatype Radio = Radio(sinr: real, se: real)

  const VOIP_MAX_PRBS := 2
  const VOIP_MIN_PRBS := 1

  /** Throughput of one block: 12 subcarriers, three quarters of it usable, in Mbit/s. */
  function PerPrbMbps(se: real, scsKhz: nat): real {
    se * (12.0 * scsKhz as real * 1000.0) * 0.75 / 1000000.0
  }

  function PrbsForDemand(demand: real, radio: Radio, scsKhz: nat): Option<int>
    requires scsKhz > 0
  {
    if radio.se <= 0.0 then None
    else Some(Max(1, Ceil(demand / PerPrbMbps(radio.se, scsKhz))))
  }

  function PrbsForVoip(radio: Radio): Option<int> {
    if radio.se <= 0.0 then None
    else Some(if radio.sinr < 5.0 then VOIP_MAX_PRBS else VOIP_MIN_PRBS)
  }

  /** The grant admission asks for; None when the UE is out of coverage. */
  function PrbsForTraffic(demand: real, radio: Radio, scsKhz: nat, profile: Profile): (r: Option<int>)
    requires scsKhz > 0
    ensures r.None? <==> radio.se <= 0.0
    ensures r.Some? ==> 1 <= r.value
    ensures r.Some? && profile != Data ==> r.value <= VOIP_MAX_PRBS
  {
    if profile == Data then PrbsForDemand(demand, radio, scsKhz) else PrbsForVoip(radio)
  }

  /** A data grant carries the demand, and no smaller positive grant would. */
  lemma DataGrantIsLeast(demand: real, radio: Radio, scsKhz: nat, fewer: int)
    requires scsKhz > 0 && radio.se > 0.0
    ensures var r := PrbsForTraffic(demand, radio, scsKhz, Data).value;
      && demand <= r as real * PerPrbMbps(radio.se, scsKhz)
      && (1 <= fewer < r ==> fewer as real * PerPrbMbps(radio.se, scsKhz) < demand)
  {
    var p := PerPrbMbps(radio.se, scsKhz);
    var q := demand / p;
    var r := PrbsForTraffic(demand, radio, scsKhz, Data).value;
    PerPrbPositive(radio.se, scsKhz);
    assert q * p == demand;
    ScaleUp(q, r as real, p);
    if 1 <= fewer < r {
      assert fewer as real < q;
      ScaleUpStrict(fewer as real, q, p);
    }
  }

  lemma PerPrbPositive(se: real, scsKhz: nat)
    requires se > 0.0 && scsKhz > 0
    ensures PerPrbMbps(se, scsKhz) > 0.0
  {
    var w := 12.0 * scsKhz as real * 1000.0;
    ScaleUpStrict(0.0, se, w);
  }

  lemma ScaleUp(a: real, b: real, p: real)
    requires a <= b && p > 0.0
    ensures a * p <= b * p
  {
  }

  lemma ScaleUpStrict(a: real, b: real, p: real)
    requires a < b && p > 0.0
    ensures a * p < b * p
  {
  }

  /** A block carries three quarters of its twelve subcarriers: at 30 kHz and 4 bit/s/Hz 1.08 Mbit/s. */
  lemma PerPrbCarries(se: real, scsKhz: nat)
    ensures PerPrbMbps(se, scsKhz) == se * (scsKhz as real * 0.009)
    ensures PerPrbMbps(4.0, 30) == 1.08
  {
    assert 12.0 * scsKhz as real * 1000.0 * 0.75 / 1000000.0 == scsKhz as real * 0.009;
    Regroup(se, 12.0 * scsKhz as real * 1000.0);
  }

  lemma Regroup(se: real, w: real)
    ensures se * w * 0.75 / 1000000.0 == se * (w * 0.75 / 1000000.0)
  {
  }

  /** Voice, and any profile but data: two blocks below 5 dB, else one. */
  lemma VoiceGrantIs(demand: real, radio: Radio, scsKhz: nat, profile: Profile)
    requires scsKhz > 0 && profile != Data && radio.se > 0.0
    ensures PrbsForTraffic(demand, radio, scsKhz, profile) == Some(if radio.sinr < 5.0 then 2 else 1)
  {
  }
}
