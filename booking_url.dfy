/** The regular expression `[?&]edit=([^&]+)` that both clients use to read
    the booking id out of the URL the booking request was redirected to, with
    Go's and Python's leftmost-match semantics and a greedy capture group. */
module BookingUrl {
  import opened Wrappers

  /** A match of the whole expression starts at `i`: a `?` or `&`, then
      `edit=`, then at least one character other than `&`. */
  predicate EditAt(url: string, i: int) {
    0 <= i && i + 6 < |url| && (url[i] == '?' || url[i] == '&')
    && url[i + 1..i + 6] == "edit=" && url[i + 6] != '&'
  }

  /** `i` is where the leftmost match starts. */
  predicate LeftmostEditAt(url: string, i: int) {
    EditAt(url, i) && forall j :: 0 <= j < i ==> !EditAt(url, j)
  }

  /** `id` is the greedy `[^&]+` run of `url` starting at `start`: it is there,
      holds no `&`, and is followed by the end of the URL or by `&`. */
  predicate RunAt(url: string, start: int, id: string) {
    0 <= start && start + |id| <= |url| && url[start..start + |id|] == id && '&' !in id
    && (start + |id| == |url| || url[start + |id|] == '&')
  }

  /** The leftmost match at or after `from`. */
  function FindEdit(url: string, from: nat): (r: Option<nat>)
    requires from <= |url|
    ensures r.Some? ==> from <= r.value && EditAt(url, r.value)
    ensures r.Some? ==> forall i :: from <= i < r.value ==> !EditAt(url, i)
    ensures r.None? ==> forall i :: from <= i < |url| ==> !EditAt(url, i)
    decreases |url| - from
  {
    if from == |url| then None
    else if EditAt(url, from) then Some(from)
    else FindEdit(url, from + 1)
  }

  /** The greedy `[^&]+`: the longest prefix of `s` without `c`. */
  function TakeUntil(s: string, c: char): (r: string)
    ensures |r| <= |s| && r == s[..|r|] && c !in r
    ensures |r| == |s| || s[|r|] == c
  {
    if s == [] || s[0] == c then []
    else
      var t := TakeUntil(s[1..], c);
      assert s[..|t| + 1] == [s[0]] + s[1..][..|t|];
      [s[0]] + t
  }

  /** The first capture group of the leftmost match, if there is one
      (Go's `FindStringSubmatch(url)[1]`, Python's `re.search(...).group(1)`). */
  function FindEditId(url: string): (r: Option<string>)
    ensures r.None? <==> forall i :: 0 <= i < |url| ==> !EditAt(url, i)
    ensures r.Some? ==> r.value != "" && exists i :: LeftmostEditAt(url, i) && RunAt(url, i + 6, r.value)
  {
    match FindEdit(url, 0)
    case None => None
    case Some(i) =>
      var id := TakeUntil(url[i + 6..], '&');
      assert url[i + 6..][0] != '&';
      assert url[i + 6..i + 6 + |id|] == url[i + 6..][..|id|];
      assert LeftmostEditAt(url, i) && RunAt(url, i + 6, id);
      Some(id)
  }

  /** The capture of an id followed by the end or by `&` is exactly that id. */
  lemma {:induction false} TakeUntilStopsAtSeparator(id: string, rest: string, c: char)
    requires c !in id
    requires rest == [] || rest[0] == c
    ensures TakeUntil(id + rest, c) == id
  {
    if id != [] {
      assert (id + rest)[1..] == id[1..] + rest;
      TakeUntilStopsAtSeparator(id[1..], rest, c);
    } else {
      assert id + rest == rest;
    }
  }

  /** Round trip: an id placed after `?edit=` in a URL whose address part has
      no `?` or `&` is read back unchanged, whatever parameters follow it. */
  lemma IdFromRedirect(address: string, id: string, rest: string)
    requires '?' !in address && '&' !in address
    requires id != "" && '&' !in id
    requires rest == [] || rest[0] == '&'
    ensures FindEditId(address + "?edit=" + id + rest) == Some(id)
  {
    var url := address + "?edit=" + id + rest;
    var p := |address|;
    assert url[p] == '?' && url[p + 1..p + 6] == "edit=" && url[p + 6] == id[0];
    assert EditAt(url, p);
    forall i | 0 <= i < p
      ensures !EditAt(url, i)
    {
      assert url[i] == address[i];
    }
    assert FindEdit(url, 0) == Some(p);
    assert url[p + 6..] == id + rest;
    TakeUntilStopsAtSeparator(id, rest, '&');
  }

  /** No match starts inside `address?other` when neither part holds `&`, the
      address holds no `?` and `other` does not begin with `edit=`. */
  lemma NoEditInFirstParameter(address: string, other: string, id: string, rest: string)
    requires '?' !in address && '&' !in address
    requires '?' !in other && '&' !in other && !(|other| >= 5 && other[..5] == "edit=")
    ensures forall i :: 0 <= i < |address + "?" + other| ==> !EditAt(address + "?" + other + "&edit=" + id + rest, i)
  {
    var url := address + "?" + other + "&edit=" + id + rest;
    forall i | 0 <= i < |address| + 1 + |other|
      ensures !EditAt(url, i)
    {
      if i < |address| {
        assert url[i] == address[i];
      } else if i > |address| {
        assert url[i] == other[i - |address| - 1];
      } else if |other| >= 5 {
        assert url[i + 1..i + 6] == other[..5];
      } else if i + 6 < |url| {
        assert url[i + 1..i + 6][|other|] == url[i + 1 + |other|] == '&';
      }
    }
  }

  /** The id is the greedy run after the leftmost match. */
  lemma IdOfLeftmost(url: string, p: nat)
    requires LeftmostEditAt(url, p)
    ensures FindEditId(url) == Some(TakeUntil(url[p + 6..], '&'))
  {
    assert FindEdit(url, 0) == Some(p);
  }

  /** An `&edit=` parameter is the one read when no match starts before it. */
  lemma IdAfterHead(url: string, head: string, id: string, rest: string)
    requires url == head + "&edit=" + id + rest
    requires id != "" && '&' !in id
    requires rest == [] || rest[0] == '&'
    requires forall i :: 0 <= i < |head| ==> !EditAt(url, i)
    ensures FindEditId(url) == Some(id)
  {
    var p := |head|;
    assert EditAt(url, p) by {
      assert url[p] == '&' && url[p + 1..p + 6] == "edit=" && url[p + 6] == id[0];
    }
    assert url[p + 6..] == id + rest;
    IdOfLeftmost(url, p);
    TakeUntilStopsAtSeparator(id, rest, '&');
  }

  /** The id is found after other parameters too: `?other=param&edit=id` reads
      `id` as long as the first parameter is not itself an `edit`. */
  lemma IdAfterOtherParameter(address: string, other: string, id: string, rest: string)
    requires '?' !in address && '&' !in address
    requires '?' !in other && '&' !in other && !(|other| >= 5 && other[..5] == "edit=")
    requires id != "" && '&' !in id
    requires rest == [] || rest[0] == '&'
    ensures FindEditId(address + "?" + other + "&edit=" + id + rest) == Some(id)
  {
    NoEditInFirstParameter(address, other, id, rest);
    IdAfterHead(address + "?" + other + "&edit=" + id + rest, address + "?" + other, id, rest);
  }

  /** The address of the example redirect below has no `?` or `&`. */
  lemma ExampleAddressPlain()
    ensures '?' !in "https://example.com/memberbooking/" && '&' !in "https://example.com/memberbooking/"
  {
  }

  /** The other pieces of the example redirect below meet the conditions of
      `IdAfterOtherParameter`. */
  lemma ExampleParameterPlain()
    ensures '?' !in "other=param" && '&' !in "other=param" && "other=param"[..5] != "edit="
    ensures '&' !in "67890"
  {
    assert "other=param"[..5][0] != "edit="[0];
  }

  /** The mid-URL redirect of the client's own examples,
      `https://example.com/memberbooking/?other=param&edit=67890&another=value`,
      written as the pieces it is made of. */
  lemma MidUrlExample()
    ensures FindEditId("https://example.com/memberbooking/" + "?" + "other=param" + "&edit=" + "67890" + "&another=value")
      == Some("67890")
  {
    ExampleAddressPlain();
    ExampleParameterPlain();
    IdAfterOtherParameter("https://example.com/memberbooking/", "other=param", "67890", "&another=value");
  }

  /** When the URL carries two `edit` parameters the first one is returned. */
  lemma FirstEditWins(address: string, id: string, other: string)
    requires '?' !in address && '&' !in address
    requires id != "" && '&' !in id
    ensures FindEditId(address + "?edit=" + id + "&edit=" + other) == Some(id)
  {
    assert address + "?edit=" + id + "&edit=" + other == address + "?edit=" + id + ("&edit=" + other);
    IdFromRedirect(address, id, "&edit=" + other);
  }

  /** An empty `edit` value is no match, so a URL with no other has no id. */
  lemma EmptyEditHasNoId()
    ensures FindEditId("/?edit=&x") == None
  {
    var url := "/?edit=&x";
    assert !EditAt(url, 1) by { assert url[7] == '&'; }
    forall i | 0 <= i < |url| && i != 1
      ensures !EditAt(url, i)
    {
      if i >= 2 { assert i + 6 >= |url| || url[i] != '?'; }
    }
  }
}
