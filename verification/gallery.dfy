/**
 * The pure helpers of the "My Generations" page
 * (clint/src/pages/MyGeneration.tsx): the download file name, the list kept
 * after a delete, the aspect-ratio class, the count label and the text shown
 * in place of a missing image.
 */
module Gallery {
  import opened Wrappers
  import opened Strs
  import Requests
  import Jobs
  import Outcomes
  import Handlers

  // ---------------------------------------------------------------------------
  // Download file name

  /** `[^a-z0-9]` with the `i` flag becomes `_`, and `toLowerCase` lowers what is left. */
  function SafeChar(c: char): (r: char)
    ensures IsAlnum(c) ==> r == ToLower(c)
    ensures !IsAlnum(c) ==> r == '_'
  {
    if IsAlnum(c) then ToLower(c) else '_'
  }

  predicate StemChar(c: char)
  {
    IsLower(c) || IsDigit(c) || c == '_'
  }

  /** `title.replace(/[^a-z0-9]/gi, '_').toLowerCase()`. */
  function Stem(title: string): (r: string)
    ensures |r| == |title|
    ensures forall i :: 0 <= i < |r| ==> StemChar(r[i])
    ensures forall i :: 0 <= i < |r| ==> (IsAlnum(title[i]) <==> r[i] != '_')
  {
    seq(|title|, i requires 0 <= i < |title| => SafeChar(title[i]))
  }

  const FileSuffix: string := "_thumbnail.jpg"

  /** The `download` attribute of the link. */
  function FileName(title: string): (r: string)
    ensures |r| == |title| + 14
    ensures IsSuffix(FileSuffix, r) && r[..|title|] == Stem(title)
  {
    var r := Stem(title) + FileSuffix;
    assert r[|r| - |FileSuffix|..] == FileSuffix;
    r
  }

  /** Sanitising a stem again changes nothing. */
  lemma StemIdempotent(title: string)
    ensures Stem(Stem(title)) == Stem(title)
  {
    var s := Stem(title);
    forall i | 0 <= i < |s| ensures SafeChar(s[i]) == s[i] {
      assert StemChar(s[i]);
    }
  }

  /** Titles that differ only in letter case, or in which non-alphanumeric characters they use, share a file name. */
  lemma FileNameForgetsCaseAndPunctuation(a: string, b: string)
    requires |a| == |b|
    requires forall i :: 0 <= i < |a| ==> (IsAlnum(a[i]) <==> IsAlnum(b[i]))
    requires forall i :: 0 <= i < |a| && IsAlnum(a[i]) ==> ToLower(a[i]) == ToLower(b[i])
    ensures FileName(a) == FileName(b)
  {
    assert Stem(a) == Stem(b);
  }

  // ---------------------------------------------------------------------------
  // The list after a delete

  /** `prev.filter(thumb => thumb._id !== id)`. */
  function AfterDelete(list: seq<Jobs.Thumbnail>, id: nat): (r: seq<Jobs.Thumbnail>)
    ensures |r| <= |list|
    ensures forall t :: t in r <==> t in list && t.id != id
    decreases |list|
  {
    if |list| == 0 then []
    else if list[0].id == id then AfterDelete(list[1..], id)
    else [list[0]] + AfterDelete(list[1..], id)
  }

  /** The number of entries with this id. */
  function CountId(list: seq<Jobs.Thumbnail>, id: nat): nat
    decreases |list|
  {
    if |list| == 0 then 0 else (if list[0].id == id then 1 else 0) + CountId(list[1..], id)
  }

  /**
   * The filter keeps order: filtering two consecutive runs gives the two
   * filtered runs one after the other, and exactly the matching entries go.
   */
  lemma {:induction false} AfterDeleteSplits(a: seq<Jobs.Thumbnail>, b: seq<Jobs.Thumbnail>, id: nat)
    ensures AfterDelete(a + b, id) == AfterDelete(a, id) + AfterDelete(b, id)
    ensures |AfterDelete(a, id)| == |a| - CountId(a, id)
    decreases |a|
  {
    if |a| > 0 {
      assert (a + b)[1..] == a[1..] + b;
      assert (a + b)[0] == a[0];
      AfterDeleteSplits(a[1..], b, id);
      if a[0].id != id {
        assert [a[0]] + (AfterDelete(a[1..], id) + AfterDelete(b, id))
            == [a[0]] + AfterDelete(a[1..], id) + AfterDelete(b, id);
      }
    } else {
      assert a + b == b;
    }
  }

  /** Deleting an id that is not listed leaves the list as it was. */
  lemma {:induction false} AfterDeleteAbsent(list: seq<Jobs.Thumbnail>, id: nat)
    requires forall i :: 0 <= i < |list| ==> list[i].id != id
    ensures AfterDelete(list, id) == list
    decreases |list|
  {
    if |list| > 0 {
      assert forall i :: 0 <= i < |list[1..]| ==> list[1..][i].id != id by {
        forall i | 0 <= i < |list[1..]| ensures list[1..][i].id != id {
          assert list[1..][i] == list[i + 1];
        }
      }
      AfterDeleteAbsent(list[1..], id);
      assert [list[0]] + list[1..] == list;
    }
  }

  // ---------------------------------------------------------------------------
  // Card rendering

  const Video: string := "aspect-video"
  const Square: string := "aspect-square"
  const Portrait: string := "aspect-[9/16]"

  /** `aspectRatioClassMap[thumb.aspect_ratio || "16:9"] ?? aspectRatioClassMap["16:9"]`. */
  function AspectClass(ar: Option<string>): (r: string)
    ensures r in {Video, Square, Portrait}
    ensures r == Square <==> Requests.OrDefault(ar, "16:9") == "1:1"
    ensures r == Portrait <==> Requests.OrDefault(ar, "16:9") == "9:16"
  {
    var key := Requests.OrDefault(ar, "16:9");
    if key == "1:1" then Square
    else if key == "9:16" then Portrait
    else Video
  }

  /** `{n} thumbnail{n !== 1 ? 's' : ''} generated`. */
  function CountLabel(n: nat): (r: string)
    ensures IsPrefix(NatToString(n) + " thumbnail", r) && IsSuffix(" generated", r)
    ensures |r| == |NatToString(n)| + 20 + (if n == 1 then 0 else 1)
    ensures r[|NatToString(n)| + 10] == (if n == 1 then ' ' else 's')
  {
    var head := NatToString(n) + " thumbnail";
    var r := head + (if n == 1 then "" else "s") + " generated";
    assert r[..|head|] == head;
    assert r[|r| - 10..] == " generated";
    r
  }

  /** What a card shows where its image would be. */
  datatype Face = Image(url: string) | Placeholder(text: string)

  /** A falsy `image_url` shows the placeholder, reading `Generating…` exactly while the record is generating. */
  function CardFace(t: Jobs.Thumbnail): (r: Face)
    ensures r.Image? <==> Requests.Truthy(t.imageUrl)
    ensures r.Image? ==> r.url == t.imageUrl.value
    ensures r.Placeholder? ==> (r.text == "Generating…" <==> t.isGenerating)
    ensures r.Placeholder? ==> (r.text == "No image" <==> !t.isGenerating)
  {
    if Requests.Truthy(t.imageUrl) then Image(t.imageUrl.value)
    else if t.isGenerating then Placeholder("Generating…")
    else Placeholder("No image")
  }

  /**
   * However a generation handler ended, the page shows its record sensibly:
   * a failure reads `No image`, whether the handler cleared `image_url` or
   * left it unset, and a success shows the stored URL.
   */
  lemma FinishedRecordFace(before: Jobs.Store, after: (Jobs.Store, Handlers.Answer), id: nat, owner: string,
                           req: Requests.Request, now: nat, policy: Handlers.Policy, prompt: string,
                           outcome: Result<Outcomes.Hit>)
    requires Requests.Valid(req)
    requires Handlers.EndsAs(before, after, id, owner, req, now, policy, prompt, outcome)
    ensures Jobs.FindOwned(after.0, id, owner).Some?
    ensures outcome.Err? ==> CardFace(Jobs.FindOwned(after.0, id, owner).value) == Placeholder("No image")
    ensures outcome.Ok? && |outcome.value.url| > 0 ==>
              CardFace(Jobs.FindOwned(after.0, id, owner).value) == Image(outcome.value.url)
  {
    var t := Jobs.FindOwned(after.0, id, owner).value;
    assert !t.isGenerating;
  }

}
