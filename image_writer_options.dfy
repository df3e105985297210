/**
 * `ImageWriterOptions` and its `Builder`: the options used when writing a metadata
 * image — the metadata version to write, the version that was asked for, whether
 * eligible leader replicas (ELR) are enabled, and what to do when the chosen
 * version cannot represent some of the metadata.
 */
module ImageWriter {
  import opened Wrappers

  /**
   * A metadata version, by its place in release order; `isLessThan` is `<`.
   * KRaft versions are numbered by feature level; earlier versions lie below 1.
   */
  type MetadataVersion = int

  /** 3.0-IV1, the first version KRaft supports. */
  const MINIMUM_KRAFT_VERSION: MetadataVersion := 1

  /** 3.3-IV0, the first version that supports FeatureLevelRecord. */
  const MINIMUM_BOOTSTRAP_VERSION: MetadataVersion := 4

  /**
   * The version an image is written with when `v` is asked for: versions older
   * than MINIMUM_BOOTSTRAP_VERSION lack FeatureLevelRecord and are written as
   * MINIMUM_KRAFT_VERSION; the others are kept.
   */
  function EffectiveMetadataVersion(v: MetadataVersion): (r: MetadataVersion)
    ensures v < MINIMUM_BOOTSTRAP_VERSION ==> r == MINIMUM_KRAFT_VERSION
    ensures r == MINIMUM_KRAFT_VERSION || MINIMUM_BOOTSTRAP_VERSION <= r
    ensures r == v <==> v == MINIMUM_KRAFT_VERSION || MINIMUM_BOOTSTRAP_VERSION <= v
  {
    if v < MINIMUM_BOOTSTRAP_VERSION then MINIMUM_KRAFT_VERSION else v
  }

  /** Asking again for the version an image is written with changes nothing. */
  lemma EffectiveMetadataVersionIdempotent(v: MetadataVersion)
    ensures EffectiveMetadataVersion(EffectiveMetadataVersion(v)) == EffectiveMetadataVersion(v)
  {
  }

  /** Asking for a later version never gives an earlier written version. */
  lemma EffectiveMetadataVersionMonotone(v: MetadataVersion, w: MetadataVersion)
    requires v <= w
    ensures EffectiveMetadataVersion(v) <= EffectiveMetadataVersion(w)
  {
  }

  /** The loss handler: the default one rethrows; the other collects each loss in the caller's list. */
  datatype LossHandler = Rethrow | Collect

  /** Raised when metadata cannot be represented in the version being written. */
  datatype UnwritableMetadataException = UnwritableMetadataException(metadataVersion: Option<MetadataVersion>, loss: string)

  /** The part of a metadata image the builder reads: its features. */
  datatype FeaturesImage = FeaturesImage(metadataVersion: MetadataVersion, isElrEnabled: bool)
  datatype MetadataImage = MetadataImage(features: FeaturesImage)

  /** The options, fixed once built; `requestedMetadataVersion` is `None` when no version was set. */
  datatype ImageWriterOptions = ImageWriterOptions(
    metadataVersion: MetadataVersion,
    lossHandler: LossHandler,
    requestedMetadataVersion: Option<MetadataVersion>,
    isEligibleLeaderReplicasEnabled: bool)
  {
    /**
     * Hands the handler an exception naming the requested version and the loss.
     * `collected` is the list a collecting handler appends to; the result is the
     * list afterwards, or the exception the handler threw.
     */
    function HandleLoss(loss: string, collected: seq<UnwritableMetadataException>): (r: Result<seq<UnwritableMetadataException>, UnwritableMetadataException>)
      ensures r.Failure? <==> lossHandler == Rethrow
      ensures r.Failure? ==> r.error == UnwritableMetadataException(requestedMetadataVersion, loss)
      ensures r.Success? ==> r.value == collected + [UnwritableMetadataException(requestedMetadataVersion, loss)]
    {
      var e := UnwritableMetadataException(requestedMetadataVersion, loss);
      match lossHandler
      case Rethrow => Failure(e)
      case Collect => Success(collected + [e])
    }
  }

  /** With the default handler every loss fails the write, and the failure names the requested version. */
  lemma DefaultHandlerAlwaysFails(options: ImageWriterOptions, loss: string, collected: seq<UnwritableMetadataException>)
    requires options.lossHandler == Rethrow
    ensures options.HandleLoss(loss, collected) == Failure(UnwritableMetadataException(options.requestedMetadataVersion, loss))
  {
  }

  class Builder {
    var metadataVersion: MetadataVersion
    var requestedMetadataVersion: Option<MetadataVersion>
    var isEligibleLeaderReplicasEnabled: bool
    var lossHandler: LossHandler

    /** The default builder; `latestProduction` is what `MetadataVersion.latestProduction()` returns. */
    constructor (latestProduction: MetadataVersion)
      ensures metadataVersion == latestProduction && requestedMetadataVersion == None
      ensures !isEligibleLeaderReplicasEnabled && lossHandler == Rethrow
    {
      metadataVersion := latestProduction;
      requestedMetadataVersion := None;
      isEligibleLeaderReplicasEnabled := false;
      lossHandler := Rethrow;
    }

    /** A builder that starts from the version and the ELR flag of an image. */
    constructor FromImage(image: MetadataImage)
      ensures metadataVersion == image.features.metadataVersion && requestedMetadataVersion == None
      ensures isEligibleLeaderReplicasEnabled == image.features.isElrEnabled && lossHandler == Rethrow
    {
      metadataVersion := image.features.metadataVersion;
      requestedMetadataVersion := None;
      isEligibleLeaderReplicasEnabled := image.features.isElrEnabled;
      lossHandler := Rethrow;
    }

    /** Records `v` as requested and writes with its effective version. */
    method SetMetadataVersion(v: MetadataVersion) returns (b: Builder)
      modifies this`metadataVersion, this`requestedMetadataVersion
      ensures b == this
      ensures requestedMetadataVersion == Some(v)
      ensures metadataVersion == EffectiveMetadataVersion(v)
      ensures metadataVersion == MINIMUM_KRAFT_VERSION || MINIMUM_BOOTSTRAP_VERSION <= metadataVersion
    {
      requestedMetadataVersion := Some(v);
      if v < MINIMUM_BOOTSTRAP_VERSION {
        metadataVersion := MINIMUM_KRAFT_VERSION;
      } else {
        metadataVersion := v;
      }
      b := this;
    }

    method SetEligibleLeaderReplicasEnabled(enabled: bool) returns (b: Builder)
      modifies this`isEligibleLeaderReplicasEnabled
      ensures b == this && isEligibleLeaderReplicasEnabled == enabled
    {
      isEligibleLeaderReplicasEnabled := enabled;
      b := this;
    }

    method SetLossHandler(handler: LossHandler) returns (b: Builder)
      modifies this`lossHandler
      ensures b == this && lossHandler == handler
    {
      lossHandler := handler;
      b := this;
    }

    /** A snapshot of the builder: later setter calls do not reach the options built. */
    method Build() returns (options: ImageWriterOptions)
      ensures options.metadataVersion == metadataVersion
      ensures options.requestedMetadataVersion == requestedMetadataVersion
      ensures options.lossHandler == lossHandler
      ensures options.isEligibleLeaderReplicasEnabled == isEligibleLeaderReplicasEnabled
    {
      options := ImageWriterOptions(metadataVersion, lossHandler, requestedMetadataVersion, isEligibleLeaderReplicasEnabled);
    }
  }

  /** Options from a default builder: latest production version, nothing requested, ELR off, losses fail. */
  method DefaultOptions(latestProduction: MetadataVersion) returns (options: ImageWriterOptions)
    ensures options == ImageWriterOptions(latestProduction, Rethrow, None, false)
  {
    var builder := new Builder(latestProduction);
    options := builder.Build();
  }

  /**
   * Options from an image with version `v` set: the image's ELR flag, `v` as the
   * requested version, its effective version as the written one, and a first loss
   * that fails naming `v`.
   */
  method OptionsForVersion(image: MetadataImage, v: MetadataVersion, loss: string)
    returns (options: ImageWriterOptions, outcome: Result<seq<UnwritableMetadataException>, UnwritableMetadataException>)
    ensures options.metadataVersion == EffectiveMetadataVersion(v) && options.requestedMetadataVersion == Some(v)
    ensures options.isEligibleLeaderReplicasEnabled == image.features.isElrEnabled
    ensures options.lossHandler == Rethrow && outcome == options.HandleLoss(loss, [])
    ensures outcome == Failure(UnwritableMetadataException(Some(v), loss))
  {
    var builder := new Builder.FromImage(image);
    builder := builder.SetMetadataVersion(v);
    options := builder.Build();
    outcome := options.HandleLoss(loss, []);
  }
}
