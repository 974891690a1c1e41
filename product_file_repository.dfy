/** `ProductFileRepositoryImpl.extractFileName`: the name under which a
    downloaded product file is saved, read from the `Content-Disposition`
    response header by a plain substring scan (not a parser of the header's
    grammar: `filename*`, parameters after `filename` and escaped quotes are
    not understood). */
module ProductFileRepository {
  import opened Common
  import opened Text

  const FilenameKey: string := "filename="

  /** `key` occurs in `s` starting at index `i`. */
  predicate OccursAt(s: string, key: string, i: nat) {
    i + |key| <= |s| && s[i..i + |key|] == key
  }

  /** Kotlin's `indexOf(key)`: the first index at which `key` occurs, or None
      (the source's -1). */
  function IndexOf(s: string, key: string): (r: Option<nat>)
    ensures r.Some? ==> OccursAt(s, key, r.value)
    ensures r.Some? ==> forall j :: 0 <= j < r.value ==> !OccursAt(s, key, j)
    ensures r.None? ==> forall j :: 0 <= j <= |s| ==> !OccursAt(s, key, j)
    decreases |s|
  {
    if |key| > |s| then None
    else if s[..|key|] == key then Some(0)
    else
      var rest := IndexOf(s[1..], key);
      forall j | 1 <= j <= |s| ensures OccursAt(s, key, j) == OccursAt(s[1..], key, j - 1) {
        OccursShift(s, key, j);
      }
      match rest
      case None => None
      case Some(k) => Some(k + 1)
  }

  /** An occurrence past the first character is an occurrence in the tail. */
  lemma OccursShift(s: string, key: string, j: nat)
    requires 1 <= j <= |s|
    ensures OccursAt(s, key, j) == OccursAt(s[1..], key, j - 1)
  {
    if j + |key| <= |s| {
      assert s[1..][j - 1..j - 1 + |key|] == s[j..j + |key|];
    }
  }

  /** Strips one pair of surrounding double quotes; a lone `"` is kept. */
  function Unquote(name: string): (r: string)
    ensures |name| >= 2 && name[0] == '"' && name[|name| - 1] == '"' ==> r == name[1..|name| - 1]
    ensures !(|name| >= 2 && name[0] == '"' && name[|name| - 1] == '"') ==> r == name
  {
    if |name| >= 2 && name[0] == '"' && name[|name| - 1] == '"' then name[1..|name| - 1] else name
  }

  /** What follows `filename=`, trimmed and unquoted, unless that is blank. */
  function NameOrFallback(afterKey: string, fallback: string): (r: string)
    ensures r == fallback || !IsBlank(r)
    ensures r != fallback ==> r == Unquote(Trim(afterKey))
    ensures !IsBlank(Unquote(Trim(afterKey))) ==> r == Unquote(Trim(afterKey))
    ensures IsBlank(Unquote(Trim(afterKey))) ==> r == fallback
  {
    var name := Unquote(Trim(afterKey));
    if IsBlank(name) then fallback else name
  }

  /** `extractFileName(disposition, fallback)`. */
  function ExtractFileName(disposition: Option<string>, fallback: string): (r: string)
    ensures disposition.None? ==> r == fallback
    ensures (disposition.Some? && forall j :: 0 <= j <= |disposition.value| ==> !OccursAt(disposition.value, FilenameKey, j))
            ==> r == fallback
    ensures r == fallback || !IsBlank(r)
    ensures !IsBlank(fallback) ==> !IsBlank(r)
    ensures r != fallback ==>
              disposition.Some? && IndexOf(disposition.value, FilenameKey).Some?
              && r == Unquote(Trim(disposition.value[IndexOf(disposition.value, FilenameKey).value + |FilenameKey|..]))
    ensures disposition.Some? && IndexOf(disposition.value, FilenameKey).Some? ==>
              r == NameOrFallback(disposition.value[IndexOf(disposition.value, FilenameKey).value + |FilenameKey|..], fallback)
  {
    match disposition
    case None => fallback
    case Some(h) =>
      match IndexOf(h, FilenameKey)
      case None => fallback
      case Some(at) =>
        assert OccursAt(h, FilenameKey, at);
        NameOrFallback(h[at + |FilenameKey|..], fallback)
  }

  /** A non-blank name after the first `filename=` is the one used, whatever
      the fallback. */
  lemma NonBlankNameKept(h: string, fallback: string)
    requires IndexOf(h, FilenameKey).Some?
    requires !IsBlank(Unquote(Trim(h[IndexOf(h, FilenameKey).value + |FilenameKey|..])))
    ensures ExtractFileName(Some(h), fallback) == Unquote(Trim(h[IndexOf(h, FilenameKey).value + |FilenameKey|..]))
  {
    var afterKey := h[IndexOf(h, FilenameKey).value + |FilenameKey|..];
    assert ExtractFileName(Some(h), fallback) == NameOrFallback(afterKey, fallback);
  }

  /** The fallback `producto_<id>.bin` used by `downloadProduct`: the
      product's id between "producto_" and ".bin", where it reads back. */
  function DownloadFallback(productId: int): (n: string)
    ensures |n| > 13 && n[..9] == "producto_" && n[|n| - 4..] == ".bin"
    ensures LongMin <= productId <= LongMax ==> ToLongOrNull(n[9..|n| - 4]) == Some(productId)
  {
    var n := "producto_" + LongText(productId) + ".bin";
    if LongMin <= productId <= LongMax then CodeReadsBack("producto_", productId, ".bin"); n else n
  }

  /** A saved download always gets a non-blank name, whatever the header. */
  lemma DownloadNameNeverBlank(productId: int, disposition: Option<string>)
    ensures !IsBlank(ExtractFileName(disposition, DownloadFallback(productId)))
  {
    assert DownloadFallback(productId)[0] == 'p';
  }

  /** When the header's first `filename=` follows a prefix without any `f`
      (such as `attachment; `), the candidate is whatever follows it. */
  lemma {:induction false} ExtractAfterPrefix(prefix: string, rest: string, fallback: string)
    requires forall j :: 0 <= j < |prefix| ==> prefix[j] != 'f'
    ensures IndexOf(prefix + FilenameKey + rest, FilenameKey) == Some(|prefix|)
    ensures ExtractFileName(Some(prefix + FilenameKey + rest), fallback) == NameOrFallback(rest, fallback)
  {
    var h := prefix + FilenameKey + rest;
    assert OccursAt(h, FilenameKey, |prefix|) by {
      assert h[|prefix|..|prefix| + |FilenameKey|] == FilenameKey;
    }
    forall j | 0 <= j < |prefix| ensures !OccursAt(h, FilenameKey, j) {
      assert h[j] == prefix[j];
      if j + |FilenameKey| <= |h| {
        assert h[j..j + |FilenameKey|][0] == h[j];
      }
    }
    var i := IndexOf(h, FilenameKey);
    assert i.Some? && i.value == |prefix|;
    assert h[|prefix| + |FilenameKey|..] == rest;
  }

  /** The header the backend sends, `attachment; filename="<name>"`. */
  function Attachment(name: string): string {
    "attachment; " + FilenameKey + "\"" + name + "\""
  }

  /** Round trip: the quoted name of an `attachment` header comes back exactly,
      inner spaces included, as long as it is not blank. */
  lemma AttachmentRoundTrip(name: string, fallback: string)
    requires !IsBlank(name)
    ensures ExtractFileName(Some(Attachment(name)), fallback) == name
  {
    var quoted := "\"" + name + "\"";
    assert Attachment(name) == "attachment; " + FilenameKey + quoted;
    ExtractAfterPrefix("attachment; ", quoted, fallback);
    assert NameOrFallback(quoted, fallback) == name by {
      QuotedNameUnquoted(name);
    }
  }

  /** A quoted name that is blank inside its quotes (`filename=""`,
      `filename=" "`) falls back. */
  lemma BlankQuotedNameFallsBack(name: string, fallback: string)
    requires IsBlank(name)
    ensures ExtractFileName(Some(Attachment(name)), fallback) == fallback
  {
    var quoted := "\"" + name + "\"";
    assert Attachment(name) == "attachment; " + FilenameKey + quoted;
    ExtractAfterPrefix("attachment; ", quoted, fallback);
    assert NameOrFallback(quoted, fallback) == fallback by {
      QuotedNameUnquoted(name);
    }
  }

  lemma QuotedNameUnquoted(name: string)
    ensures Unquote(Trim("\"" + name + "\"")) == name
  {
    var quoted := "\"" + name + "\"";
    TrimKeeps(quoted);
    assert quoted[1..|quoted| - 1] == name;
  }

  /** A value that opens with `"` but does not close with one (a lone `"`, or
      a name followed by more text) is kept as it is, opening quote included. */
  lemma UnpairedQuoteKept(rest: string, fallback: string)
    requires rest != [] && rest[0] == '"' && !IsWhitespace(rest[|rest| - 1])
    requires |rest| == 1 || rest[|rest| - 1] != '"'
    ensures ExtractFileName(Some("attachment; " + FilenameKey + rest), fallback) == rest
  {
    var h := "attachment; " + FilenameKey + rest;
    assert ExtractFileName(Some(h), fallback) == NameOrFallback(rest, fallback) by {
      ExtractAfterPrefix("attachment; ", rest, fallback);
    }
    assert NameOrFallback(rest, fallback) == rest by {
      BareNameKept(rest, fallback);
    }
  }

  /** A candidate with no whitespace at either end and no surrounding pair of
      quotes is the name as it is. */
  lemma BareNameKept(rest: string, fallback: string)
    requires rest != [] && !IsWhitespace(rest[0]) && !IsWhitespace(rest[|rest| - 1])
    requires !(|rest| >= 2 && rest[0] == '"' && rest[|rest| - 1] == '"')
    ensures NameOrFallback(rest, fallback) == rest
  {
    TrimKeeps(rest);
    assert Unquote(Trim(rest)) == rest;
    assert !IsBlank(rest) by {
      assert !IsWhitespace(rest[0]);
    }
  }

  /** Parameters after `filename` are not split off: they stay in the name,
      and then the closing quote is no longer last, so the quotes stay too. */
  lemma TrailingParameterKept(name: string, fallback: string)
    ensures ExtractFileName(Some(Attachment(name) + "; size=1"), fallback)
            == "\"" + name + "\"; size=1"
  {
    var rest := "\"" + name + "\"; size=1";
    assert Attachment(name) + "; size=1" == "attachment; " + FilenameKey + rest;
    UnpairedQuoteKept(rest, fallback);
  }
}
