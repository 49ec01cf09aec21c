/**
 * The channel topic as the ticket's only record of its category and claim:
 * the topic an open writes, the suffix a claim appends, the claim test, and
 * the expression that reads the category back.
 *
 * A channel without a topic is modelled by the empty topic: the claim handler
 * reads `topic || ''` and the extraction `topic?.split(...)`, and both treat
 * a missing topic and an empty one alike.
 */
module Topic {
  import opened Wrappers
  import opened Builtins
  import opened Registry

  const TOPIC_PREFIX: string := "Ticket de "
  const FIELD_SEPARATOR: string := " | "
  /** The category marker without its trailing space. */
  const CATEGORY_KEY: string := "Categoría:"
  const CATEGORY_MARKER: string := CATEGORY_KEY + " "
  const CLAIM_MARKER: string := "Reclamado por"

  /** The topic of a new ticket: `Ticket de <tag> | Categoría: <name>`. */
  function OpenTopic(tag: string, categoryName: string): string
  {
    TOPIC_PREFIX + tag + FIELD_SEPARATOR + CATEGORY_MARKER + categoryName
  }

  /** What a claim appends: ` | Reclamado por: <@actor>`. */
  function ClaimSuffix(actorId: string): string
  {
    FIELD_SEPARATOR + CLAIM_MARKER + ": <@" + actorId + ">"
  }

  /** The topic after a claim by `actorId`. */
  function ClaimTopic(topic: string, actorId: string): string
  {
    topic + ClaimSuffix(actorId)
  }

  /** The claimed topic, spelled out. */
  lemma ClaimTopicSpelled(topic: string, actorId: string)
    ensures ClaimTopic(topic, actorId) == topic + " | Reclamado por: <@" + actorId + ">"
  {
  }

  /** `topic.includes('Reclamado por')`: the ticket counts as claimed. */
  predicate IsClaimed(topic: string)
  {
    Contains(topic, CLAIM_MARKER)
  }

  /** `topic?.split('Categoría: ')[1]?.split('|')[0]?.trim() || 'Ticket'`. */
  function CategoryOf(topic: string): (name: string)
    ensures name != "" && Trimmed(name)
  {
    var parts := Split(topic, CATEGORY_MARKER);
    if |parts| < 2 then FALLBACK
    else
      var segment := Trim(Split(parts[1], "|")[0]);
      if segment == "" then FALLBACK else segment
  }

  /** A tag that cannot be mistaken for, or run into, the category marker. */
  predicate SafeTag(tag: string)
  {
    !Contains(tag, CATEGORY_KEY)
  }

  /** A category name that reads back from a topic as itself. */
  predicate SafeLabel(name: string)
  {
    name != "" && Trimmed(name) && '|' !in name && !Contains(name, CATEGORY_KEY)
  }

  /** After a claim the topic carries the claim marker, so every later claim is refused. */
  lemma ClaimTopicIsClaimed(topic: string, actorId: string)
    ensures IsClaimed(ClaimTopic(topic, actorId))
  {
    var s := ClaimTopic(topic, actorId);
    var p := |topic| + |FIELD_SEPARATOR|;
    assert s == (topic + FIELD_SEPARATOR) + CLAIM_MARKER + (": <@" + actorId + ">");
    assert s[p..p + |CLAIM_MARKER|] == CLAIM_MARKER;
    assert OccursAt(s, CLAIM_MARKER, p);
  }

  /** No character of the marker but its last is a space. */
  lemma MarkerHasNoInnerSpace(k: nat)
    requires k < |CATEGORY_KEY|
    ensures CATEGORY_MARKER[k] != ' '
  {
    assert CATEGORY_MARKER[k] == CATEGORY_KEY[k];
    assert CATEGORY_KEY[k] in CATEGORY_KEY;
    assert ' ' !in CATEGORY_KEY;
  }

  /**
   * No marker can start inside `x` when `x` holds no marker key and what
   * follows `x` is nothing or begins with a space.
   */
  lemma NoMarkerInside(x: string, y: string, j: nat)
    requires !Contains(x, CATEGORY_KEY)
    requires y == [] || y[0] == ' '
    requires j < |x|
    ensures !OccursAt(x + y, CATEGORY_MARKER, j)
  {
    var s := x + y;
    var n := |CATEGORY_MARKER|;
    if j + n <= |s| {
      var w := s[j..j + n];
      if j + |CATEGORY_KEY| <= |x| {
        assert !OccursAt(x, CATEGORY_KEY, j);
        assert w[..|CATEGORY_KEY|] == x[j..j + |CATEGORY_KEY|];
        assert CATEGORY_MARKER[..|CATEGORY_KEY|] == CATEGORY_KEY;
      } else {
        var k := |x| - j;
        MarkerHasNoInnerSpace(k);
        assert w[k] == s[|x|] == y[0] == ' ';
      }
    }
  }

  /** No marker starts at a character other than `C`. */
  lemma NotMarkerStart(s: string, j: nat)
    requires j < |s| && s[j] != 'C'
    ensures !OccursAt(s, CATEGORY_MARKER, j)
  {
    NotStartingAt(s, CATEGORY_MARKER, j);
  }

  /** No `|` starts at a character other than `|`. */
  lemma NotBarAt(s: string, j: nat)
    requires j < |s| && s[j] != '|'
    ensures !OccursAt(s, "|", j)
  {
    NotStartingAt(s, "|", j);
  }

  /** A name ending the topic is the whole segment after the marker. */
  lemma SegmentAtEnd(name: string)
    requires SafeLabel(name)
    ensures Trim(Split(Split(name, CATEGORY_MARKER)[0], "|")[0]) == name
  {
    forall j: nat ensures !OccursAt(name, CATEGORY_MARKER, j) {
      if j < |name| { NoMarkerInside(name, [], j); assert name + [] == name; }
    }
    assert Split(name, CATEGORY_MARKER) == [name];
    forall j: nat ensures !OccursAt(name, "|", j) {
      if j < |name| {
        assert name[j] in name;
        NotBarAt(name, j);
      }
    }
    assert Split(name, "|") == [name];
    TrimOfTrimmed(name);
  }

  /** A name followed by a further ` |` field: the next marker, if any, comes after that field starts. */
  lemma SegmentKeepsField(name: string, rest: string)
    requires SafeLabel(name)
    requires |rest| >= 2 && rest[0] == ' ' && rest[1] == '|'
    ensures var piece := Split(name + rest, CATEGORY_MARKER)[0];
      |piece| >= |name| + 2 && piece[..|name|] == name && piece[|name|] == ' ' && piece[|name| + 1] == '|'
  {
    var r := name + rest;
    var n := |name|;
    var piece := Split(r, CATEGORY_MARKER)[0];
    forall j: nat | j < n + 2 ensures !OccursAt(r, CATEGORY_MARKER, j) {
      if j < n {
        NoMarkerInside(name, rest, j);
      } else {
        assert r[j] == rest[j - n];
        NotMarkerStart(r, j);
      }
    }
    match IndexFrom(r, CATEGORY_MARKER, 0)
    case None =>
      assert piece == r;
    case Some(i) =>
      assert piece == r[..i];
  }

  /** When the first `|` of `piece` is at index `n + 1`, the first piece of the split is `piece[..n + 1]`. */
  lemma FirstBarPiece(name: string, piece: string)
    requires '|' !in name
    requires |piece| >= |name| + 2 && piece[..|name|] == name
    requires piece[|name|] == ' ' && piece[|name| + 1] == '|'
    ensures Split(piece, "|")[0] == piece[..|name| + 1]
  {
    var n := |name|;
    assert OccursAt(piece, "|", n + 1) by {
      assert piece[n + 1..n + 2] == [piece[n + 1]];
    }
    forall j: nat | j < n + 1 ensures !OccursAt(piece, "|", j) {
      NoBarInName(name, piece, j);
    }
    FirstOccurrence(piece, "|", n + 1);
  }

  /** No `|` starts within the copy of `name` at the front of `piece`, nor at the space after it. */
  lemma NoBarInName(name: string, piece: string, j: nat)
    requires '|' !in name
    requires |piece| > |name| && piece[..|name|] == name && piece[|name|] == ' '
    requires j <= |name|
    ensures !OccursAt(piece, "|", j)
  {
    if j < |name| {
      assert piece[j] == piece[..|name|][j];
      assert name[j] in name;
    }
    NotBarAt(piece, j);
  }

  /** Cutting `name + " |…"` at its first `|` and trimming gives the name back. */
  lemma SegmentBeforeBar(name: string, piece: string)
    requires Trimmed(name) && '|' !in name
    requires |piece| >= |name| + 2 && piece[..|name|] == name
    requires piece[|name|] == ' ' && piece[|name| + 1] == '|'
    ensures Trim(Split(piece, "|")[0]) == name
  {
    var n := |name|;
    FirstBarPiece(name, piece);
    var cut := piece[..n + 1];
    assert cut[..n] == name;
    TrimDropsTrailing(name, cut, ' ');
  }

  /** The segment after the marker, up to the next field separator, trimmed, is the name. */
  lemma CategoryOfSegment(name: string, rest: string)
    requires SafeLabel(name)
    requires rest == [] || (|rest| >= 2 && rest[0] == ' ' && rest[1] == '|')
    ensures Trim(Split(Split(name + rest, CATEGORY_MARKER)[0], "|")[0]) == name
  {
    if rest == [] {
      assert name + rest == name;
      SegmentAtEnd(name);
    } else {
      SegmentKeepsField(name, rest);
      SegmentBeforeBar(name, Split(name + rest, CATEGORY_MARKER)[0]);
    }
  }

  /** The shape of a ticket topic around its category marker. */
  ghost function Layout(pre: string, tag: string, sep: string, r: string): string
  {
    pre + tag + sep + CATEGORY_MARKER + r
  }

  lemma MarkerAfterSeparator(pre: string, tag: string, sep: string, r: string)
    ensures OccursAt(Layout(pre, tag, sep, r), CATEGORY_MARKER, |pre| + |tag| + |sep|)
  {
    var s := Layout(pre, tag, sep, r);
    var p := |pre| + |tag| + |sep|;
    assert s[p..p + |CATEGORY_MARKER|] == CATEGORY_MARKER;
  }

  lemma NoMarkerInPre(pre: string, tag: string, sep: string, r: string, j: nat)
    requires 'C' !in pre && j < |pre|
    ensures !OccursAt(Layout(pre, tag, sep, r), CATEGORY_MARKER, j)
  {
    var s := Layout(pre, tag, sep, r);
    assert s[j] == pre[j] && pre[j] in pre;
    NotMarkerStart(s, j);
  }

  lemma NoMarkerInTag(pre: string, tag: string, sep: string, r: string, j: nat)
    requires !Contains(tag, CATEGORY_KEY) && |sep| > 0 && sep[0] == ' '
    requires |pre| <= j < |pre| + |tag|
    ensures !OccursAt(Layout(pre, tag, sep, r), CATEGORY_MARKER, j)
  {
    var y := sep + CATEGORY_MARKER + r;
    NoMarkerInside(tag, y, j - |pre|);
    ShiftedOccurrence(pre, tag + y, j - |pre|);
    assert Layout(pre, tag, sep, r) == pre + (tag + y);
  }

  lemma NoMarkerInSep(pre: string, tag: string, sep: string, r: string, j: nat)
    requires 'C' !in sep && |pre| + |tag| <= j < |pre| + |tag| + |sep|
    ensures !OccursAt(Layout(pre, tag, sep, r), CATEGORY_MARKER, j)
  {
    var s := Layout(pre, tag, sep, r);
    var h := |pre| + |tag|;
    assert s[j] == sep[j - h] && sep[j - h] in sep;
    NotMarkerStart(s, j);
  }

  /**
   * In `pre + tag + sep + marker + r`, with no `C` in `pre` or `sep`, `sep`
   * starting with a space and no marker key inside `tag`, the first marker
   * is the one after `sep`.
   */
  lemma FirstMarkerAfter(pre: string, tag: string, sep: string, r: string)
    requires !Contains(tag, CATEGORY_KEY)
    requires 'C' !in pre && 'C' !in sep && |sep| > 0 && sep[0] == ' '
    ensures IndexFrom(Layout(pre, tag, sep, r), CATEGORY_MARKER, 0) == Some(|pre| + |tag| + |sep|)
  {
    var p := |pre| + |tag| + |sep|;
    MarkerAfterSeparator(pre, tag, sep, r);
    forall j: nat | j < p ensures !OccursAt(Layout(pre, tag, sep, r), CATEGORY_MARKER, j) {
      if j < |pre| {
        NoMarkerInPre(pre, tag, sep, r, j);
      } else if j < |pre| + |tag| {
        NoMarkerInTag(pre, tag, sep, r, j);
      } else {
        NoMarkerInSep(pre, tag, sep, r, j);
      }
    }
    FirstOccurrence(Layout(pre, tag, sep, r), CATEGORY_MARKER, p);
  }

  /** In a ticket topic the first marker is the one the open wrote after the tag. */
  lemma FirstMarkerAfterTag(tag: string, r: string)
    requires SafeTag(tag)
    ensures IndexFrom(TOPIC_PREFIX + tag + FIELD_SEPARATOR + CATEGORY_MARKER + r, CATEGORY_MARKER, 0)
         == Some(|TOPIC_PREFIX| + |tag| + |FIELD_SEPARATOR|)
  {
    assert 'C' !in TOPIC_PREFIX && 'C' !in FIELD_SEPARATOR;
    FirstMarkerAfter(TOPIC_PREFIX, tag, FIELD_SEPARATOR, r);
  }

  /** An occurrence after a prefix is an occurrence in what follows the prefix. */
  lemma ShiftedOccurrence(a: string, b: string, j: nat)
    ensures OccursAt(a + b, CATEGORY_MARKER, |a| + j) <==> OccursAt(b, CATEGORY_MARKER, j)
  {
    if j + |CATEGORY_MARKER| <= |b| {
      assert (a + b)[|a| + j..|a| + j + |CATEGORY_MARKER|] == b[j..j + |CATEGORY_MARKER|];
    }
  }

  /**
   * The category reads back from a ticket topic, before or after a claim:
   * anything that follows the name and starts a new `|` field is ignored.
   */
  lemma CategoryOfTopic(tag: string, name: string, rest: string)
    requires SafeTag(tag) && SafeLabel(name)
    requires rest == [] || (|rest| >= 2 && rest[0] == ' ' && rest[1] == '|')
    ensures CategoryOf(OpenTopic(tag, name) + rest) == name
  {
    var r := name + rest;
    var s := TOPIC_PREFIX + tag + FIELD_SEPARATOR + CATEGORY_MARKER + r;
    var p := |TOPIC_PREFIX| + |tag| + |FIELD_SEPARATOR|;
    assert OpenTopic(tag, name) + rest == s;
    FirstMarkerAfterTag(tag, r);
    assert s[p + |CATEGORY_MARKER|..] == r;
    var parts := Split(s, CATEGORY_MARKER);
    assert parts == [s[..p]] + Split(r, CATEGORY_MARKER);
    assert parts[1] == Split(r, CATEGORY_MARKER)[0];
    CategoryOfSegment(name, rest);
  }

  /** A freshly opened ticket's topic reads back as its category. */
  lemma CategoryOfOpenTopic(tag: string, name: string)
    requires SafeTag(tag) && SafeLabel(name)
    ensures CategoryOf(OpenTopic(tag, name)) == name
  {
    CategoryOfTopic(tag, name, []);
    assert OpenTopic(tag, name) + [] == OpenTopic(tag, name);
  }

  /** A claimed ticket's topic still reads back as its category. */
  lemma CategoryOfClaimTopic(tag: string, name: string, actorId: string)
    requires SafeTag(tag) && SafeLabel(name)
    ensures CategoryOf(ClaimTopic(OpenTopic(tag, name), actorId)) == name
  {
    CategoryOfTopic(tag, name, ClaimSuffix(actorId));
  }

  /** A topic without the marker carries no category: the fallback label is used. */
  lemma CategoryOfUnmarked(topic: string)
    requires !Contains(topic, CATEGORY_MARKER)
    ensures CategoryOf(topic) == FALLBACK
  {
  }

  /** A label without the accented letter of the marker cannot hold the marker's key. */
  lemma NoKeyWithoutAccent(s: string)
    requires 'í' !in s
    ensures !Contains(s, CATEGORY_KEY)
  {
    forall i: nat ensures !OccursAt(s, CATEGORY_KEY, i) {
      if i + |CATEGORY_KEY| <= |s| {
        assert s[i..i + |CATEGORY_KEY|][7] == s[i + 7];
        assert s[i + 7] in s;
      }
    }
  }

  /** A label is safe when it starts and ends with a visible character and has neither `|` nor `í`. */
  lemma SafeByCharacters(name: string)
    requires name != [] && !IsSpace(name[0]) && !IsSpace(name[|name| - 1])
    requires '|' !in name && 'í' !in name
    ensures SafeLabel(name)
  {
    NoKeyWithoutAccent(name);
  }

  /** The characters of each registered label that make it safe. */
  lemma LabelCharacters(i: nat)
    requires i < |CATEGORY_LABELS|
    ensures var name := CATEGORY_LABELS[i];
      && name != [] && !IsSpace(name[0]) && !IsSpace(name[|name| - 1])
      && '|' !in name && 'í' !in name
  {
  }

  /** Each registered label is safe. */
  lemma LabelIsSafe(i: nat)
    requires i < |CATEGORY_LABELS|
    ensures SafeLabel(CATEGORY_LABELS[i])
  {
    LabelCharacters(i);
    SafeByCharacters(CATEGORY_LABELS[i]);
  }

  /** Every label the registry can hand out, the fallback included, reads back from a topic. */
  lemma CategoryNamesAreSafe(key: string)
    ensures SafeLabel(CategoryName(key))
  {
    var name := CategoryName(key);
    if name == FALLBACK {
      SafeByCharacters(FALLBACK);
    } else {
      var i :| 0 <= i < |CATEGORY_LABELS| && CATEGORY_LABELS[i] == name;
      LabelIsSafe(i);
    }
  }

  /** No registered label holds an `l`. */
  lemma LabelHasNoL(i: nat)
    requires i < |CATEGORY_LABELS|
    ensures 'l' !in CATEGORY_LABELS[i]
  {
  }

  /** A claim marker has an `l` as its fourth character. */
  lemma ClaimNeedsL(s: string, j: nat)
    requires j + |CLAIM_MARKER| <= |s| && s[j + 3] != 'l'
    ensures !OccursAt(s, CLAIM_MARKER, j)
  {
    assert s[j..j + |CLAIM_MARKER|][3] == s[j + 3];
  }

  /** No claim marker runs into a ` |` that follows its start. */
  lemma NoClaimAcrossBar(s: string, j: nat, b: nat)
    requires j < b && b + 1 < |s| && s[b] == ' ' && s[b + 1] == '|' && b < j + |CLAIM_MARKER|
    ensures !OccursAt(s, CLAIM_MARKER, j)
  {
    if j + |CLAIM_MARKER| <= |s| {
      var w := s[j..j + |CLAIM_MARKER|];
      var k := b - j;
      if k + 1 < |CLAIM_MARKER| {
        assert w[k + 1] == '|';
        assert '|' !in CLAIM_MARKER;
        assert CLAIM_MARKER[k + 1] in CLAIM_MARKER;
      } else {
        assert w[k] == ' ';
        assert CLAIM_MARKER[k] == 'r';
      }
    }
  }

  lemma NoClaimInPre(pre: string, tag: string, rest: string, j: nat)
    requires 'R' !in pre && j < |pre|
    ensures !OccursAt(pre + tag + rest, CLAIM_MARKER, j)
  {
    var s := pre + tag + rest;
    assert s[j] == pre[j] && pre[j] in pre;
    NotStartingAt(s, CLAIM_MARKER, j);
  }

  lemma NoClaimInTag(pre: string, tag: string, rest: string, j: nat)
    requires !Contains(tag, CLAIM_MARKER) && |pre| <= j && j + |CLAIM_MARKER| <= |pre| + |tag|
    ensures !OccursAt(pre + tag + rest, CLAIM_MARKER, j)
  {
    var s := pre + tag + rest;
    var k := j - |pre|;
    assert s[j..j + |CLAIM_MARKER|] == tag[k..k + |CLAIM_MARKER|];
    assert !OccursAt(tag, CLAIM_MARKER, k);
  }

  lemma NoClaimInRest(pre: string, tag: string, rest: string, j: nat)
    requires 'l' !in rest && |pre| + |tag| <= j
    ensures !OccursAt(pre + tag + rest, CLAIM_MARKER, j)
  {
    var s := pre + tag + rest;
    if j + |CLAIM_MARKER| <= |s| {
      assert s[j + 3] == rest[j + 3 - |pre| - |tag|];
      assert rest[j + 3 - |pre| - |tag|] in rest;
      ClaimNeedsL(s, j);
    }
  }

  /**
   * No claim marker in `pre + tag + rest` when `pre` has no `R`, `tag` no
   * marker, and `rest` no `l` and starts with ` |`.
   */
  lemma NoClaimAround(pre: string, tag: string, rest: string)
    requires 'R' !in pre && !Contains(tag, CLAIM_MARKER)
    requires 'l' !in rest && |rest| >= 2 && rest[0] == ' ' && rest[1] == '|'
    ensures !Contains(pre + tag + rest, CLAIM_MARKER)
  {
    var s := pre + tag + rest;
    var h := |pre| + |tag|;
    assert s[h] == ' ' && s[h + 1] == '|';
    forall j: nat ensures !OccursAt(s, CLAIM_MARKER, j) {
      if j < |pre| {
        NoClaimInPre(pre, tag, rest, j);
      } else if j + |CLAIM_MARKER| <= h {
        NoClaimInTag(pre, tag, rest, j);
      } else if j < h {
        NoClaimAcrossBar(s, j, h);
      } else {
        NoClaimInRest(pre, tag, rest, j);
      }
    }
  }

  /** A topic opened under a name without `l` is unclaimed unless the tag holds the claim marker. */
  lemma OpenTopicUnclaimed(tag: string, name: string)
    requires !Contains(tag, CLAIM_MARKER) && 'l' !in name
    ensures !IsClaimed(OpenTopic(tag, name))
  {
    var head := FIELD_SEPARATOR + CATEGORY_MARKER;
    var rest := head + name;
    assert 'l' !in head && 'R' !in TOPIC_PREFIX;
    assert 'l' !in rest;
    assert OpenTopic(tag, name) == TOPIC_PREFIX + tag + rest;
    NoClaimAround(TOPIC_PREFIX, tag, rest);
  }

  /**
   * A freshly opened ticket is unclaimed, unless its opener's tag itself
   * holds the claim marker: nothing the open writes after the tag can
   * complete or contain one.
   */
  lemma FreshTopicUnclaimed(tag: string, key: string)
    requires !Contains(tag, CLAIM_MARKER)
    ensures !IsClaimed(OpenTopic(tag, CategoryName(key)))
  {
    var name := CategoryName(key);
    assert 'l' !in name by {
      if name != FALLBACK {
        var i :| 0 <= i < |CATEGORY_LABELS| && CATEGORY_LABELS[i] == name;
        LabelHasNoL(i);
      }
    }
    OpenTopicUnclaimed(tag, name);
  }

  /** The topic of a ticket opened by a user whose tag is the bare marker key. */
  function HiddenTopic(): string
  {
    OpenTopic(CATEGORY_KEY, "Compras")
  }

  /** In that topic the first marker starts inside the tag, right after the prefix. */
  lemma HiddenTopicFirstMarker()
    ensures HiddenTopic()[|TOPIC_PREFIX| + |CATEGORY_MARKER|..] == "| " + CATEGORY_MARKER + "Compras"
    ensures IndexFrom(HiddenTopic(), CATEGORY_MARKER, 0) == Some(|TOPIC_PREFIX|)
  {
    var s := HiddenTopic();
    var p := |TOPIC_PREFIX|;
    assert s == TOPIC_PREFIX + CATEGORY_MARKER + ("| " + CATEGORY_MARKER + "Compras");
    assert OccursAt(s, CATEGORY_MARKER, p) by {
      assert s[p..p + |CATEGORY_MARKER|] == CATEGORY_MARKER;
    }
    forall j: nat | j < p ensures !OccursAt(s, CATEGORY_MARKER, j) {
      assert s[j] == TOPIC_PREFIX[j] && TOPIC_PREFIX[j] in TOPIC_PREFIX;
      NotMarkerStart(s, j);
    }
    FirstOccurrence(s, CATEGORY_MARKER, p);
  }

  /** After the misplaced marker, the next field is empty up to its `|`. */
  lemma HiddenSegmentIsEmpty()
    ensures Trim(Split(Split("| " + CATEGORY_MARKER + "Compras", CATEGORY_MARKER)[0], "|")[0]) == ""
  {
    var rest := "| " + CATEGORY_MARKER + "Compras";
    assert OccursAt(rest, CATEGORY_MARKER, 2) by {
      assert rest[2..2 + |CATEGORY_MARKER|] == CATEGORY_MARKER;
    }
    NotMarkerStart(rest, 0);
    NotMarkerStart(rest, 1);
    FirstOccurrence(rest, CATEGORY_MARKER, 2);
    var piece := Split(rest, CATEGORY_MARKER)[0];
    assert piece == "| ";
    assert OccursAt(piece, "|", 0);
    FirstOccurrence(piece, "|", 0);
  }

  /**
   * The tag condition cannot be weakened to "no `Categoría: `": a tag that
   * is the marker key without its space runs into the separator, the first
   * marker then starts inside the tag, and the topic reads back as the
   * fallback label instead of the category.
   */
  lemma TagEndingInKeyHidesCategory()
    ensures !Contains(CATEGORY_KEY, CATEGORY_MARKER)
    ensures CategoryOf(HiddenTopic()) == FALLBACK
  {
    assert !OccursAt(CATEGORY_KEY, CATEGORY_MARKER, 0);
    var s := HiddenTopic();
    var p := |TOPIC_PREFIX|;
    HiddenTopicFirstMarker();
    HiddenSegmentIsEmpty();
    assert Split(s, CATEGORY_MARKER) == [s[..p]] + Split(s[p + |CATEGORY_MARKER|..], CATEGORY_MARKER);
  }

  /** Conversely, a tag holding the claim marker makes a fresh ticket look claimed. */
  lemma TagWithClaimMarkerLooksClaimed(name: string)
    ensures IsClaimed(OpenTopic(CLAIM_MARKER, name))
  {
    var s := OpenTopic(CLAIM_MARKER, name);
    var p := |TOPIC_PREFIX|;
    assert s[p..p + |CLAIM_MARKER|] == CLAIM_MARKER;
    assert OccursAt(s, CLAIM_MARKER, p);
  }
}
