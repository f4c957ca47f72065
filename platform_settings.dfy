/** The admin platform settings: the admin fee slider and the fee breakdown it
    drives. The feature and rule switches only show a notice. */
module PlatformSettings {

  /** The slider's bounds, `min="0"` and `max="30"`. */
  const MinFee: int := 0
  const MaxFee: int := 30

  /** A range input keeps its value within its bounds. */
  function SliderValue(position: int): (fee: int)
    ensures MinFee <= fee <= MaxFee
    ensures MinFee <= position <= MaxFee ==> fee == position
  {
    if position < MinFee then MinFee else if position > MaxFee then MaxFee else position
  }

  /** "Artist receives": `100 - adminFeePercentage`. */
  function ArtistShare(fee: int): int
  {
    100 - fee
  }

  /** "Platform fee": `adminFeePercentage`. */
  function PlatformShare(fee: int): int
  {
    fee
  }

  /** The two shares make up the whole, and within the slider's range the artist
      keeps between 70 and 100 percent. */
  lemma SharesSplitTheWhole(fee: int)
    ensures ArtistShare(fee) + PlatformShare(fee) == 100
    ensures MinFee <= fee <= MaxFee ==> 70 <= ArtistShare(fee) <= 100 && 0 <= PlatformShare(fee) <= 30
  {
  }

  class Settings {
    var adminFeePercentage: int

    /** The fee stays within the slider's bounds. */
    predicate Valid()
      reads this
    {
      MinFee <= adminFeePercentage <= MaxFee
    }

    constructor ()
      ensures adminFeePercentage == 15 && Valid()
    {
      adminFeePercentage := 15;
    }

    /** The slider's `onChange`: the value the range input reports. */
    method SetFee(position: int)
      modifies this
      ensures adminFeePercentage == SliderValue(position) && Valid()
    {
      adminFeePercentage := SliderValue(position);
    }
  }
}
