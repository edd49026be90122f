/** `splitChannel` and `normalizeChannel` of internal/service/releases.go. */
module Channels {
  import opened Core
  import Filenames

  datatype Parts = Parts(track: string, risk: string)

  function SplitChannel(channel: string): Parts {
    var parts := Filenames.Split(channel, '/');
    if |parts| == 1 then Parts("latest", parts[0]) else Parts(parts[0], parts[1])
  }

  function NormalizeChannel(channel: string): string {
    if channel == "" || '/' in channel then channel else "latest/" + channel
  }

  /** Normalising again changes nothing, and only bare risk names change at all. */
  lemma NormalizeIdempotent(channel: string)
    ensures NormalizeChannel(NormalizeChannel(channel)) == NormalizeChannel(channel)
    ensures NormalizeChannel(channel) == channel <==> channel == "" || '/' in channel
  {
    var bare := !(channel == "" || '/' in channel);
    if bare {
      assert NormalizeChannel(channel)[6] == '/';
    }
  }

  /** Track and risk are those of the channel as written. */
  lemma SplitNormalized(channel: string)
    ensures SplitChannel(NormalizeChannel(channel)) == SplitChannel(channel)
  {
    if channel != "" && '/' !in channel {
      assert "latest/" + channel == "latest" + ['/'] + channel;
      Filenames.SplitAt("latest", '/', channel);
      assert Filenames.Split("latest", '/') == ["latest"];
      assert Filenames.Split(channel, '/') == [channel];
    }
  }

  /** The parts of a channel as written: a bare name is a risk of track "latest"; otherwise the track stands
      before the first "/" and the risk between it and the next one, or the end. */
  predicate PartsOf(channel: string, parts: Parts) {
    if '/' !in channel then parts == Parts("latest", channel)
    else
      var head := parts.track + "/" + parts.risk;
      && '/' !in parts.track && '/' !in parts.risk
      && head <= channel && (|head| < |channel| ==> channel[|head|] == '/')
  }

  lemma SplitHead(s: string)
    ensures Filenames.Split(s, '/')[0] == s[..Filenames.Index(s, '/')]
    ensures '/' !in s[..Filenames.Index(s, '/')]
  {
    assert s[..|s|] == s;
  }

  lemma SplitInTwo(channel: string)
    requires '/' in channel
    ensures var i := Filenames.Index(channel, '/');
      && i < |channel| && '/' !in channel[..i]
      && var rest := channel[i + 1..];
         SplitChannel(channel) == Parts(channel[..i], rest[..Filenames.Index(rest, '/')])
  {
    hide Filenames.Index;
    SplitHead(channel);
    assert channel[..|channel|] == channel;
    SplitHead(channel[Filenames.Index(channel, '/') + 1..]);
  }

  lemma HeadIs(channel: string, i: nat, j: nat)
    requires i < |channel| && channel[i] == '/' && j <= |channel| - i - 1
    ensures channel[..i] + "/" + channel[i + 1..][..j] == channel[..i + 1 + j]
    ensures channel[..i + 1 + j] <= channel
  {}

  lemma SplitDecided(channel: string)
    ensures PartsOf(channel, SplitChannel(channel))
  {
    hide SplitChannel, Filenames.Index, Filenames.Split;
    if '/' in channel {
      SplitInTwo(channel);
      var i := Filenames.Index(channel, '/');
      var rest := channel[i + 1..];
      var j := Filenames.Index(rest, '/');
      SplitHead(rest);
      HeadIs(channel, i, j);
    } else {
      BareSplit(channel);
    }
  }

  lemma BareSplit(channel: string)
    requires '/' !in channel
    ensures SplitChannel(channel) == Parts("latest", channel)
  {}
}
