/**
 * The server's carrier: whether a network is set up, which one, and at what
 * frequency. A carrier starts out inactive; `setNetwork` activates it only when it
 * is inactive, and `releaseCarrier` puts it back to its initial state. The two
 * checks compare a requested network and frequency against the configuration
 * (`/supportedCarriers`, `/antenna/supportedLowFreq`, `/antenna/supportedHighFreq`),
 * whose values are given here as a `CarrierConfig`.
 */
module Carriers {
  import opened Common

  /** One more than the largest `size_t`. */
  const SIZE_LIMIT: int := 0x1_0000_0000_0000_0000

  /** The three fields of a carrier, as a value. */
  datatype CarrierState = CarrierState(active: bool, network: string, frequency: nat)

  /** What a new carrier holds, and what a released one holds again. */
  const INITIAL: CarrierState := CarrierState(false, "", 0)

  /** `setNetwork` on a carrier in state `s`: the new state and whether it succeeded. */
  function SetUp(s: CarrierState, network: string): (r: (CarrierState, bool))
    ensures r.1 <==> !s.active
    ensures r.1 ==> r.0 == CarrierState(true, network, s.frequency)
    ensures !r.1 ==> r.0 == s
  {
    if !s.active then (CarrierState(true, network, s.frequency), true) else (s, false)
  }

  /** Setting up twice without a release in between fails the second time and keeps the first network. */
  lemma SecondSetUpFails(s: CarrierState, first: string, second: string)
    requires !s.active
    ensures var (s1, ok1) := SetUp(s, first);
      var (s2, ok2) := SetUp(s1, second);
      ok1 && !ok2 && s2 == s1 && s2.network == first
  {
  }

  /** After a release a set-up succeeds again, whatever came before. */
  lemma ReleaseAllowsSetUp(network: string)
    ensures SetUp(INITIAL, network) == (CarrierState(true, network, 0), true)
  {
  }

  /** The configuration values the two checks consult. */
  datatype CarrierConfig = CarrierConfig(supportedCarriers: string, lowFrequency: int, highFrequency: int)

  /** `checkSupportedCarrier`: the requested name occurs somewhere in the supported-carriers text. */
  predicate CheckSupportedCarrier(config: CarrierConfig, network: string)
    ensures CheckSupportedCarrier(config, network) ==> |network| <= |config.supportedCarriers|
  {
    Find(config.supportedCarriers, network).Some?
  }

  /** The check is substring containment, nothing more. */
  lemma SupportedIsSubstring(config: CarrierConfig, network: string)
    ensures CheckSupportedCarrier(config, network) <==> exists p :: OccursAt(config.supportedCarriers, network, p)
  {
    if !CheckSupportedCarrier(config, network) {
      assert forall p :: 0 <= p ==> !OccursAt(config.supportedCarriers, network, p);
    }
  }

  /** The empty name occurs in every text, so it is always supported. */
  lemma EmptyNetworkSupported(config: CarrierConfig)
    ensures CheckSupportedCarrier(config, "")
  {
    assert OccursAt(config.supportedCarriers, "", 0);
  }

  /**
   * Against "2G 3G", a fragment such as "G" or "G 3" passes (it is not a whole word),
   * while "4G" does not.
   */
  lemma FragmentsSupported(low: int, high: int)
    ensures var config := CarrierConfig("2G 3G", low, high);
      CheckSupportedCarrier(config, "G") && CheckSupportedCarrier(config, "G 3") &&
      CheckSupportedCarrier(config, "2G") && !CheckSupportedCarrier(config, "4G")
  {
    var config := CarrierConfig("2G 3G", low, high);
    assert OccursAt(config.supportedCarriers, "G", 1);
    assert OccursAt(config.supportedCarriers, "G 3", 1);
    assert OccursAt(config.supportedCarriers, "2G", 0);
    var text := config.supportedCarriers;
    assert text == ['2', 'G', ' ', '3', 'G'];
    forall p | 0 <= p
      ensures !OccursAt(text, "4G", p)
    {
      if p + 2 <= |text| {
        assert text[p] in {'2', 'G', ' ', '3'};
        assert text[p..p + 2][0] == text[p];
      }
    }
  }

  /** `checkSupportedFrequency`: the frequency lies in the configured range, both ends included. */
  predicate CheckSupportedFrequency(config: CarrierConfig, frequency: int)
  {
    config.lowFrequency <= frequency <= config.highFrequency
  }

  /** Both ends of the range pass and the neighbours outside it do not. */
  lemma FrequencyRangeInclusive(config: CarrierConfig)
    requires config.lowFrequency <= config.highFrequency
    ensures CheckSupportedFrequency(config, config.lowFrequency)
    ensures CheckSupportedFrequency(config, config.highFrequency)
    ensures !CheckSupportedFrequency(config, config.lowFrequency - 1)
    ensures !CheckSupportedFrequency(config, config.highFrequency + 1)
  {
  }

  class Carrier {
    var active: bool
    var network: string
    var frequency: nat

    function State(): CarrierState
      reads this
    {
      CarrierState(active, network, frequency)
    }

    predicate Valid()
      reads this
    {
      frequency < SIZE_LIMIT
    }

    /** A new carrier is inactive, with no network and frequency 0. */
    constructor ()
      ensures State() == INITIAL && Valid()
    {
      network := "";
      active := false;
      frequency := 0;
    }

    /** `setNetwork`: succeeds, and activates with the given network, exactly when inactive. */
    method SetNetwork(network: string) returns (succeeded: bool)
      modifies this
      ensures (State(), succeeded) == SetUp(old(State()), network)
      ensures frequency == old(frequency)
    {
      if !active {
        this.network := network;
        active := true;
        return true;
      } else {
        return false;
      }
    }

    method GetNetwork() returns (network: string)
      ensures network == this.network
    {
      return this.network;
    }

    /** `setFrequency`: overwrites the frequency whatever the status. */
    method SetFrequency(frequency: nat)
      requires frequency < SIZE_LIMIT
      modifies this
      ensures State() == old(State()).(frequency := frequency) && Valid()
    {
      this.frequency := frequency;
    }

    method GetFrequency() returns (frequency: nat)
      ensures frequency == this.frequency
    {
      return this.frequency;
    }

    /** `releaseCarrier`: back to the initial state from any state. */
    method ReleaseCarrier()
      modifies this
      ensures State() == INITIAL && Valid()
    {
      network := "";
      active := false;
      frequency := 0;
    }

    method GetCarrierStatus() returns (status: bool)
      ensures status == active
    {
      return active;
    }
  }
}
