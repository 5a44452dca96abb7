// The in-place channel conversions of in_read in audio_hw.cpp.
module SubmixConversion {
  import opened Basics

  newtype int16 = x: int | -0x8000 <= x < 0x8000

  function Average(a: int16, b: int16): int16 {
    TruncDiv(a as int + b as int, 2) as int16
  }

  // One mono frame for each pair of samples.
  function Mono(s: seq<int16>, frames: nat): (r: seq<int16>)
    requires 2 * frames <= |s|
    ensures |r| == frames
  {
    seq(frames, i requires 0 <= i < frames => Average(s[2 * i], s[2 * i + 1]))
  }

  // Two samples for each mono frame.
  function Stereo(s: seq<int16>, frames: nat): (r: seq<int16>)
    requires frames <= |s|
    ensures |r| == 2 * frames
  {
    seq(2 * frames, i requires 0 <= i < 2 * frames => s[i / 2])
  }

  // Ascending: frame i is written after samples 2i and 2i + 1 were read, so no sample is
  // overwritten before it was used.
  method StereoToMono(data: array<int16>, frames: nat)
    requires 2 * frames <= data.Length
    modifies data
    ensures data[..frames] == Mono(old(data[..]), frames)
    ensures forall k | 0 <= k < frames ::
      var m, n := data[k] as int, old(data[2 * k]) as int + old(data[2 * k + 1]) as int;
      (n >= 0 ==> 2 * m <= n <= 2 * m + 1) && (n <= 0 ==> 2 * m - 1 <= n <= 2 * m)
    ensures data[frames..] == old(data[frames..])
  {
    hide Average, Mono;
    ghost var was := data[..];
    ghost var want := Mono(was, frames);
    var offset := 0;
    for frame := 0 to frames
      invariant offset == 2 * frame
      invariant forall k | 0 <= k < frame :: data[k] == want[k]
      invariant forall k | frame <= k < data.Length :: data[k] == was[k]
    {
      MonoFrame(was, frames, frame);
      data[frame] := Average(data[offset], data[offset + 1]);
      offset := offset + 2;
    }
    assert forall k | frames <= k < data.Length :: data[k] == was[k];
    forall k | 0 <= k < frames
      ensures var m, n := data[k] as int, was[2 * k] as int + was[2 * k + 1] as int;
        (n >= 0 ==> 2 * m <= n <= 2 * m + 1) && (n <= 0 ==> 2 * m - 1 <= n <= 2 * m)
    {
      MonoFrame(was, frames, k);
      AverageIsNearer(was[2 * k], was[2 * k + 1]);
    }
  }

  // Descending: samples 2i and 2i + 1 are written after every frame above i was read.
  method MonoToStereo(data: array<int16>, frames: nat)
    requires 2 * frames <= data.Length
    modifies data
    ensures data[..2 * frames] == Stereo(old(data[..]), frames)
    ensures forall k | 0 <= k < frames :: data[2 * k] == data[2 * k + 1] == old(data[k])
    ensures data[2 * frames..] == old(data[2 * frames..])
  {
    hide Stereo;
    ghost var was := data[..];
    ghost var want := Stereo(was, frames);
    var frame: int := frames - 1;
    var offset: int := 2 * (frames - 1);
    while frame >= 0
      invariant -1 <= frame < frames && offset == 2 * frame
      invariant forall k | 2 * (frame + 1) <= k < 2 * frames :: data[k] == want[k]
      invariant forall k | 0 <= k < frame + 1 :: data[k] == was[k]
      invariant forall k | 2 * frames <= k < data.Length :: data[k] == was[k]
    {
      StereoFrame(was, frames, frame);
      var sample := data[frame];
      data[offset] := sample;
      data[offset + 1] := sample;
      frame := frame - 1;
      offset := offset - 2;
    }
    forall k | 0 <= k < frames ensures data[2 * k] == data[2 * k + 1] == was[k] {
      StereoFrame(was, frames, k);
    }
  }

  // Half of the sum, and of two halves the one nearer to zero.
  lemma AverageIsNearer(a: int16, b: int16)
    ensures var m, n := Average(a, b) as int, a as int + b as int;
      && (n >= 0 ==> 2 * m <= n <= 2 * m + 1) && (n <= 0 ==> 2 * m - 1 <= n <= 2 * m)
      && Average(a, b) == Average(b, a) && Min(a as int, b as int) <= m <= Max(a as int, b as int)
  {
  }

  lemma AverageOfEqual(a: int16)
    ensures Average(a, a) == a
  {
  }

  // Where the samples of one frame come from.
  lemma StereoFrame(s: seq<int16>, frames: nat, i: nat)
    requires i < frames <= |s|
    ensures Stereo(s, frames)[2 * i] == s[i] && Stereo(s, frames)[2 * i + 1] == s[i]
  {
  }

  // Duplicating and then averaging gives every sample back.
  lemma MonoAfterStereo(s: seq<int16>, frames: nat)
    requires frames <= |s|
    ensures Mono(Stereo(s, frames), frames) == s[..frames]
  {
    hide Average, Stereo;
    forall i | 0 <= i < frames ensures Mono(Stereo(s, frames), frames)[i] == s[i] {
      StereoFrame(s, frames, i);
      AverageOfEqual(s[i]);
    }
  }

  // Averaging and then duplicating keeps exactly the buffers whose frames hold equal samples.
  lemma StereoAfterMonoIff(s: seq<int16>, frames: nat)
    requires |s| == 2 * frames
    ensures Stereo(Mono(s, frames), frames) == s
       <==> forall i | 0 <= i < frames :: s[2 * i] == s[2 * i + 1]
  {
    hide Average, Stereo, Mono;
    var t := Stereo(Mono(s, frames), frames);
    forall i | 0 <= i < frames
      ensures t[2 * i] == t[2 * i + 1] == Average(s[2 * i], s[2 * i + 1])
    {
      StereoFrame(Mono(s, frames), frames, i);
      MonoFrame(s, frames, i);
    }
    if forall i | 0 <= i < frames :: s[2 * i] == s[2 * i + 1] {
      forall k | 0 <= k < 2 * frames ensures t[k] == s[k] {
        var i := k / 2;
        assert k == 2 * i || k == 2 * i + 1;
        AverageOfEqual(s[2 * i]);
      }
    }
  }

  lemma MonoFrame(s: seq<int16>, frames: nat, i: nat)
    requires i < frames && 2 * frames <= |s|
    ensures Mono(s, frames)[i] == Average(s[2 * i], s[2 * i + 1])
  {
    hide Average;
  }

  // The two passes one after the other, on the same array.
  method RoundTrip(data: array<int16>, frames: nat)
    requires 2 * frames <= data.Length
    modifies data
    ensures data[..frames] == old(data[..frames])
  {
    MonoAfterStereo(data[..], frames);
    MonoToStereo(data, frames);
    assert Mono(data[..], frames) == Mono(data[..2 * frames], frames);
    StereoToMono(data, frames);
  }
}
