/** The playing-partner setting (`Config.GetPlayingPartnersList`): a
    comma-separated list of member ids, each trimmed of surrounding white space. */
module PartnerConfig {
  import opened Strings

  /** Each piece with its surrounding white space removed. */
  function TrimAll(pieces: seq<string>): (r: seq<string>)
    ensures |r| == |pieces|
    ensures forall k :: 0 <= k < |r| ==> r[k] == TrimSpace(pieces[k])
  {
    seq(|pieces|, k requires 0 <= k < |pieces| => TrimSpace(pieces[k]))
  }

  /** The list the setting stands for: nothing for the empty setting, otherwise
      one trimmed entry per comma-separated piece. */
  function PartnersList(setting: string): seq<string> {
    if setting == "" then [] else TrimAll(Split(setting, ','))
  }

  /** Splits the setting and then trims each piece in place, overwriting the
      slot it came from. */
  method GetPlayingPartnersList(setting: string) returns (parts: seq<string>)
    ensures parts == PartnersList(setting)
  {
    if setting == "" {
      return [];
    }
    var pieces := Split(setting, ',');
    var a := new string[|pieces|](k requires 0 <= k < |pieces| => pieces[k]);
    for i := 0 to a.Length
      invariant forall k :: 0 <= k < i ==> a[k] == TrimSpace(pieces[k])
      invariant forall k :: i <= k < a.Length ==> a[k] == pieces[k]
    {
      a[i] := TrimSpace(a[i]);
    }
    parts := a[..];
    assert parts == TrimAll(pieces);
  }

  /** A non-empty setting gives exactly one entry more than it has commas. */
  lemma {:induction false} PartnersCount(setting: string)
    requires setting != ""
    ensures |PartnersList(setting)| == Count(setting, ',') + 1
  {
    SplitCount(setting, ',');
  }

  /** Every entry is the matching comma-separated piece, trimmed: it holds no
      comma and neither starts nor ends with white space, and the untrimmed
      pieces joined by commas give the setting back, so order is kept and
      pieces that trim to nothing are kept as empty entries. */
  lemma {:induction false} PartnersArePieces(setting: string)
    requires setting != ""
    ensures var pieces := Split(setting, ',');
      && Join(pieces, ',') == setting
      && |PartnersList(setting)| == |pieces|
      && forall k :: 0 <= k < |pieces| ==>
           && PartnersList(setting)[k] == TrimSpace(pieces[k])
           && ',' !in PartnersList(setting)[k]
  {
    var pieces := Split(setting, ',');
    JoinSplit(setting, ',');
    SplitPiecesHaveNoSeparator(setting, ',');
  }

  /** A piece made only of white space is kept as an empty entry. */
  lemma BlankPieceKept(before: string, after: string)
    requires ',' !in before
    ensures |PartnersList(before + ", ," + after)| >= 2
    ensures PartnersList(before + ", ," + after)[1] == ""
  {
    var s := before + ", ," + after;
    SplitPieceThenSeparator(before, " ," + after, ',');
    assert s == before + [','] + (" ," + after);
    var rest := " ," + after;
    SplitPieceThenSeparator(" ", after, ',');
    assert rest == " " + [','] + after;
    assert Split(s, ',')[1] == " ";
    assert LeadingSpaces(" ") == 1;
  }

  /** Writing trimmed, comma-free ids with commas and reading the setting back
      gives the same ids. */
  lemma {:induction false} PartnersRoundTrip(ids: seq<string>)
    requires |ids| >= 1 && Join(ids, ',') != ""
    requires forall k :: 0 <= k < |ids| ==> ',' !in ids[k] && IsTrimmed(ids[k])
    ensures PartnersList(Join(ids, ',')) == ids
  {
    SplitJoin(ids, ',');
    forall k | 0 <= k < |ids|
      ensures TrimSpace(ids[k]) == ids[k]
    {
      TrimSpaceOfTrimmed(ids[k]);
    }
  }
}
