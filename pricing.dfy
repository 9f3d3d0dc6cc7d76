/**
 * The credit packs of lib/pricing.ts and their two lookups. Each pack's Stripe price id
 * is read from the environment and may be unset; the environment is a parameter.
 */
module Pricing {
  import opened Wrappers

  datatype CreditType = Image | Video

  datatype PricingOption = PricingOption(
    id: string,
    labelText: string,  // `label` in the source, a reserved word here
    price: string,
    priceId: Option<string>,
    credits: nat,
    creditType: CreditType)

  /** The six `NEXT_PUBLIC_STRIPE_PRICE_*` variables the packs read their price ids from. */
  datatype PriceEnv = PriceEnv(
    imageSm: Option<string>,
    imageMd: Option<string>,
    imageLg: Option<string>,
    videoSm: Option<string>,
    videoMd: Option<string>,
    videoLg: Option<string>)

  /** `PRICING_OPTIONS` under a given environment. */
  function PricingOptions(env: PriceEnv): seq<PricingOption>
  {
    [
      PricingOption("image_sm", "5 Generation", "$2.99", env.imageSm, 5, Image),
      PricingOption("image_md", "10 Generation", "$4.99", env.imageMd, 10, Image),
      PricingOption("image_lg", "25 Generation", "$9.99", env.imageLg, 25, Image),
      PricingOption("video_sm", "4 Video Generation", "$4.99", env.videoSm, 4, Video),
      PricingOption("video_md", "7 Video Generation", "$7.99", env.videoMd, 7, Video),
      PricingOption("video_lg", "14 Video Generation", "$14.99", env.videoLg, 14, Video)
    ]
  }

  /** `options.find(matches)`: the first option that matches, or None when none does. */
  function Find(options: seq<PricingOption>, matches: PricingOption -> bool): (r: Option<PricingOption>)
    ensures r.None? <==> forall i :: 0 <= i < |options| ==> !matches(options[i])
    ensures r.Some? ==> exists i :: 0 <= i < |options| && options[i] == r.value && matches(r.value) &&
                          forall j :: 0 <= j < i ==> !matches(options[j])
  {
    if |options| == 0 then None
    else if matches(options[0]) then Some(options[0])
    else
      var r := Find(options[1..], matches);
      if r.Some? then
        var i :| 0 <= i < |options[1..]| && options[1..][i] == r.value && matches(r.value) &&
                 forall j :: 0 <= j < i ==> !matches(options[1..][j]);
        assert options[i + 1] == r.value;
        r
      else r
  }

  /** `getPricingOption(id)`: a pack with that id, and None exactly when no pack has it. */
  function GetPricingOption(env: PriceEnv, id: string): (r: Option<PricingOption>)
    ensures r.Some? ==> r.value.id == id && r.value in PricingOptions(env)
    ensures r.None? <==> forall i :: 0 <= i < |PricingOptions(env)| ==> PricingOptions(env)[i].id != id
  {
    Find(PricingOptions(env), (o: PricingOption) => o.id == id)
  }

  /**
   * `getPricingByPriceId(priceId)`: `option.priceId === priceId`, which an unset price id
   * never satisfies. A pack found has its price id set to the one asked for, and None
   * means no pack has it.
   */
  function GetPricingByPriceId(env: PriceEnv, priceId: string): (r: Option<PricingOption>)
    ensures r.Some? ==> r.value.priceId == Some(priceId) && r.value in PricingOptions(env)
    ensures r.None? <==> forall i :: 0 <= i < |PricingOptions(env)| ==> PricingOptions(env)[i].priceId != Some(priceId)
  {
    Find(PricingOptions(env), (o: PricingOption) => o.priceId == Some(priceId))
  }

  // ---------------------------------------------------------------- table facts

  /** The pack ids are pairwise distinct. */
  lemma OptionIdsDistinct(env: PriceEnv)
    ensures forall i, j :: 0 <= i < j < |PricingOptions(env)| ==> PricingOptions(env)[i].id != PricingOptions(env)[j].id
  {
  }

  /** So looking up a pack's own id finds that pack, and an id that is no pack's finds nothing. */
  lemma GetPricingOptionFindsOwnPack(env: PriceEnv, id: string)
    ensures forall i :: 0 <= i < |PricingOptions(env)| && PricingOptions(env)[i].id == id ==>
      GetPricingOption(env, id) == Some(PricingOptions(env)[i])
    ensures (forall i :: 0 <= i < |PricingOptions(env)| ==> PricingOptions(env)[i].id != id) ==>
      GetPricingOption(env, id) == None
  {
    OptionIdsDistinct(env);
  }

  /** With no price id configured, no price id matches any pack. */
  lemma UnsetEnvMatchesNothing(priceId: string)
    ensures GetPricingByPriceId(PriceEnv(None, None, None, None, None, None), priceId) == None
  {
  }

  /** Three image packs of 5, 10 and 25 credits, then three video packs of 4, 7 and 14. */
  lemma PackCredits(env: PriceEnv)
    ensures |PricingOptions(env)| == 6
    ensures forall i :: 0 <= i < 3 ==> PricingOptions(env)[i].creditType == Image
    ensures forall i :: 3 <= i < 6 ==> PricingOptions(env)[i].creditType == Video
    ensures [PricingOptions(env)[0].credits, PricingOptions(env)[1].credits, PricingOptions(env)[2].credits] == [5, 10, 25]
    ensures [PricingOptions(env)[3].credits, PricingOptions(env)[4].credits, PricingOptions(env)[5].credits] == [4, 7, 14]
  {
  }
}
