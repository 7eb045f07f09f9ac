/**
 * The decisions of the video analyzer that do not touch the network or a
 * decoder: which attachments and links count as videos, and which frame
 * numbers of an animated image are sampled.
 */
module VideoAnalyzer {
  import opened Wrappers
  import opened Text

  /** The file extensions the analyzer accepts, as lower-case suffixes. */
  const SupportedFormats: seq<string> := [".mp4", ".mov", ".avi", ".mkv", ".webm", ".gif"]

  /** The MIME prefix of a video attachment. */
  const VideoMime: string := "video/"

  /** `any(name.lower().endswith(ext) for ext in supported_formats)` */
  predicate HasVideoExtension(name: string)
  {
    exists ext :: ext in SupportedFormats && EndsWith(Lower(name), ext)
  }

  /** The extension test ignores the case of the letters in the suffix. */
  lemma SuffixIgnoresCase(stem: string, suffix: string, ext: string)
    requires ext in SupportedFormats && Lower(suffix) == ext
    ensures HasVideoExtension(stem + suffix)
  {
    var name := Lower(stem + suffix);
    assert name[|stem|..] == Lower(suffix) by {
      forall k | 0 <= k < |suffix| ensures name[|stem| + k] == Lower(suffix)[k] {
        assert (stem + suffix)[|stem| + k] == suffix[k];
      }
    }
    assert EndsWith(name, ext);
  }

  /**
   * A URL is a video link when one of the site patterns matches it (decided
   * outside this model and passed in as `siteMatches`) or when it ends with a
   * supported extension.
   */
  function IsVideoUrl(url: string, siteMatches: bool): (r: bool)
    ensures HasVideoExtension(url) ==> r
    ensures !siteMatches ==> (r <==> HasVideoExtension(url))
    ensures siteMatches ==> r
  {
    siteMatches || HasVideoExtension(url)
  }

  /**
   * What the analyzer can see of a chat attachment. `None` stands for an
   * attribute that is absent; a content type of `None` behaves the same way.
   */
  datatype Attachment = Attachment(contentType: Option<string>, filename: Option<string>)

  /** A video content type decides first; otherwise the file name's extension does. */
  function IsVideoAttachment(a: Attachment): (r: bool)
    ensures a.contentType.Some? && StartsWith(a.contentType.value, VideoMime) ==> r
    ensures a.filename.None? ==> (r <==> a.contentType.Some? && StartsWith(a.contentType.value, VideoMime))
    ensures a.contentType.None? ==> (r <==> a.filename.Some? && HasVideoExtension(a.filename.value))
    ensures a.contentType.None? && a.filename.None? ==> !r
    ensures r ==> (a.contentType.Some? && StartsWith(a.contentType.value, VideoMime))
                  || (a.filename.Some? && HasVideoExtension(a.filename.value))
  {
    if a.contentType.Some? && StartsWith(a.contentType.value, VideoMime) then true
    else if a.filename.Some? then HasVideoExtension(a.filename.value)
    else false
  }

  predicate StrictlyIncreasing(s: seq<int>)
  {
    forall i, j :: 0 <= i < j < |s| ==> s[i] < s[j]
  }

  /** Multiples of a positive step grow strictly. */
  lemma {:induction false} StepGrows(step: int, i: int, j: int)
    requires step >= 1 && 0 <= i < j
    ensures i * step < j * step
    decreases j - i
  {
    if i < j - 1 {
      StepGrows(step, i, j - 1);
    }
    assert j * step == (j - 1) * step + step;
  }

  /** The last sampled frame, `(num - 1) * (total // num)`, lies below `total`. */
  lemma LastSampleInside(total: int, num: int, i: int)
    requires 0 < num < total && 0 <= i < num
    ensures 0 <= i * (total / num) < total
  {
    var step := total / num;
    assert total == num * step + total % num;
    assert num * step <= total;
    assert step >= 1;
    if i < num - 1 {
      StepGrows(step, i, num - 1);
    }
    assert (num - 1) * step == num * step - step;
    assert i * step >= 0;
  }

  /**
   * The frame numbers sampled from an animated image with `total` frames
   * when `num` frames are asked for. `None` is the division by zero that the
   * extraction's exception handler turns into an empty frame list.
   */
  function FrameIndices(total: int, num: int): (r: Option<seq<int>>)
    ensures r.None? <==> num == 0 < total
    ensures total <= num ==> r.Some? && |r.value| == (if total < 0 then 0 else total)
                             && forall i :: 0 <= i < |r.value| ==> r.value[i] == i
    ensures 0 < num < total ==> r.Some? && |r.value| == num
                                && forall i :: 0 <= i < num ==> r.value[i] == i * (total / num)
    ensures num < 0 && num < total ==> r == Some([])
    ensures r.Some? ==> StrictlyIncreasing(r.value)
                        && forall i :: 0 <= i < |r.value| ==> 0 <= r.value[i] < total
  {
    if total <= num then
      Some(seq(if total < 0 then 0 else total, i => i))
    else if num == 0 then
      None
    else if num < 0 then
      Some([])
    else
      var step := total / num;
      var indices := seq(num, i => i * step);
      assert forall i :: 0 <= i < num ==> 0 <= indices[i] < total by {
        forall i | 0 <= i < num ensures 0 <= indices[i] < total {
          LastSampleInside(total, num, i);
        }
      }
      assert StrictlyIncreasing(indices) by {
        forall i, j | 0 <= i < j < num ensures indices[i] < indices[j] {
          LastSampleInside(total, num, i);
          StepGrows(step, i, j);
        }
      }
      Some(indices)
  }

  /** Sampling is evenly spaced: neighbouring frame numbers are `total // num` apart. */
  lemma FramesEvenlySpaced(total: int, num: int, i: int)
    requires 0 < num < total && 0 <= i < num - 1
    ensures FrameIndices(total, num).Some?
    ensures FrameIndices(total, num).value[i + 1] - FrameIndices(total, num).value[i] == total / num
  {
    var step := total / num;
    assert (i + 1) * step == i * step + step;
  }
}
