/**
 * Template text as a sequence of pieces: literal prose and the three
 * placeholders `{bedrijfsnaam}`, `{notitie}` and `{gebruikersnaam}` of the
 * outreach templates. `Flatten` spells the template string; the pieces let
 * proofs see where each placeholder stands.
 */
module Pattern {
  import opened Strings

  /** The three placeholders a template may contain. */
  datatype Token = Company | Note | Sender

  function TokenName(t: Token): string {
    match t
    case Company => "bedrijfsnaam"
    case Note => "notitie"
    case Sender => "gebruikersnaam"
  }

  /** The placeholder as it is written in a template: the name in braces. */
  function TokenText(t: Token): string {
    "{" + TokenName(t) + "}"
  }

  datatype Piece = Text(text: string) | Slot(token: Token)

  function PieceText(x: Piece): string {
    match x
    case Text(s) => s
    case Slot(t) => TokenText(t)
  }

  /** The template string a sequence of pieces spells. */
  function Flatten(p: seq<Piece>): string
    decreases |p|
  {
    if p == [] then "" else PieceText(p[0]) + Flatten(p[1..])
  }

  /** No literal piece contains an opening brace. */
  predicate Plain(p: seq<Piece>) {
    forall i :: 0 <= i < |p| && p[i].Text? ==> Lacks(p[i].text, '{')
  }

  /** A placeholder opens with a brace, has none after it, and its second character names it. */
  lemma TokenShape(t: Token)
    ensures |TokenText(t)| >= 2 && TokenText(t)[0] == '{'
    ensures Lacks(TokenText(t)[1..], '{')
    ensures forall u :: TokenText(u)[1] == TokenText(t)[1] ==> u == t
  {
  }

  lemma FlattenCons(x: Piece, p: seq<Piece>)
    ensures Flatten([x] + p) == PieceText(x) + Flatten(p)
  {
    assert ([x] + p)[1..] == p;
  }

  /** A slot in the pattern puts its placeholder into the template string. */
  lemma {:induction false} SlotOccurs(p: seq<Piece>, t: Token)
    requires Slot(t) in p
    ensures Occurs(Flatten(p), TokenText(t))
    decreases |p|
  {
    var s, x, T := Flatten(p), PieceText(p[0]), TokenText(t);
    assert s == x + Flatten(p[1..]);
    if p[0] == Slot(t) {
      assert s[0..|T|] == T;
      assert OccursAt(s, T, 0);
    } else {
      assert Slot(t) in p[1..];
      SlotOccurs(p[1..], t);
      var k :| 0 <= k <= |Flatten(p[1..])| && OccursAt(Flatten(p[1..]), T, k);
      OccursShifted(x, Flatten(p[1..]), T, k);
    }
  }

  /**
   * In a plain pattern every brace opens a slot, so a placeholder whose slot
   * the pattern lacks does not occur in the template string.
   */
  lemma {:induction false} NoSlotNoOccurrence(p: seq<Piece>, t: Token)
    requires Plain(p) && Slot(t) !in p
    ensures !Occurs(Flatten(p), TokenText(t))
    decreases |p|
  {
    if p != [] {
      var s, x, T := Flatten(p), PieceText(p[0]), TokenText(t);
      assert s == x + Flatten(p[1..]);
      assert Plain(p[1..]) by {
        forall i | 0 <= i < |p[1..]| && p[1..][i].Text?
          ensures Lacks(p[1..][i].text, '{')
        {
          assert p[1..][i] == p[i + 1];
        }
      }
      NoSlotNoOccurrence(p[1..], t);
      TokenShape(t);
      forall k | 0 <= k <= |s| ensures !OccursAt(s, T, k) {
        if k < |x| {
          OccursAtChar(s, T, k, 0);
          assert s[k] == x[k];
          match p[0]
          case Text(_) =>
            assert x[k] != '{';
          case Slot(u) =>
            TokenShape(u);
            if k == 0 {
              OccursAtChar(s, T, k, 1);
              assert s[1] == x[1] != T[1];
            } else {
              assert x[1..][k - 1] == x[k] != '{';
            }
        } else {
          OccursInSuffix(x, Flatten(p[1..]), T, k);
        }
      }
    }
  }

  function FillPiece(x: Piece, t: Token, r: string): Piece {
    if x == Slot(t) then Text(r) else x
  }

  /** The pattern with every slot for `t` replaced by the literal text `r`. */
  function Fill(p: seq<Piece>, t: Token, r: string): (q: seq<Piece>)
    ensures |q| == |p|
    decreases |p|
  {
    if p == [] then [] else [FillPiece(p[0], t, r)] + Fill(p[1..], t, r)
  }

  /** The pattern with every slot for `t` turned into a slot for `u`. */
  function Retarget(p: seq<Piece>, t: Token, u: Token): (q: seq<Piece>)
    ensures |q| == |p|
    decreases |p|
  {
    if p == [] then [] else [if p[0] == Slot(t) then Slot(u) else p[0]] + Retarget(p[1..], t, u)
  }

  /** The value a piece stands for once each placeholder is given one. */
  function Value(x: Piece, company: string, note: string, sender: string): string {
    match x
    case Text(s) => s
    case Slot(Company) => company
    case Slot(Note) => note
    case Slot(Sender) => sender
  }

  /**
   * The text a pattern stands for with each placeholder given its value
   * directly, slot by slot: the reference the renderer is measured against.
   */
  function Spell(p: seq<Piece>, company: string, note: string, sender: string): string
    decreases |p|
  {
    if p == [] then "" else Value(p[0], company, note, sender) + Spell(p[1..], company, note, sender)
  }

  lemma PlainTail(p: seq<Piece>)
    requires Plain(p) && p != []
    ensures Plain(p[1..])
  {
    forall i | 0 <= i < |p[1..]| && p[1..][i].Text? ensures Lacks(p[1..][i].text, '{') {
      assert p[1..][i] == p[i + 1];
    }
  }

  /**
   * One global replace of a placeholder on the string a plain pattern spells
   * is the string of the pattern with that slot filled in: each brace in the
   * string opens a placeholder, and the replaced text is not scanned again.
   */
  lemma {:induction false} ReplaceFlatten(p: seq<Piece>, t: Token, r: string)
    requires Plain(p)
    ensures ReplaceAll(Flatten(p), TokenText(t), r) == Flatten(Fill(p, t, r))
    decreases |p|
  {
    if p == [] {
      assert ReplaceAll("", TokenText(t), r) == "";
    } else {
      var q := Fill(p, t, r);
      assert q[1..] == Fill(p[1..], t, r);
      PlainTail(p);
      ReplaceFlatten(p[1..], t, r);
      ReplacePiece(p[0], Flatten(p[1..]), t, r);
    }
  }

  /** One piece and whatever follows it: the piece is replaced on its own. */
  lemma ReplacePiece(x: Piece, rest: string, t: Token, r: string)
    requires x.Text? ==> Lacks(x.text, '{')
    ensures ReplaceAll(PieceText(x) + rest, TokenText(t), r) ==
      PieceText(FillPiece(x, t, r)) + ReplaceAll(rest, TokenText(t), r)
  {
    TokenShape(t);
    match x
    case Text(s) =>
      ReplaceAllSkips(s, rest, TokenText(t), r);
    case Slot(u) =>
      if u == t {
        ReplaceAllAtFront(rest, TokenText(t), r);
      } else {
        ReplaceOtherToken(u, rest, t, r);
      }
  }

  /** Another placeholder is copied through: it differs from `t` at its second character. */
  lemma ReplaceOtherToken(u: Token, rest: string, t: Token, r: string)
    requires u != t
    ensures ReplaceAll(TokenText(u) + rest, TokenText(t), r) == TokenText(u) + ReplaceAll(rest, TokenText(t), r)
  {
    TokenShape(t);
    TokenShape(u);
    ReplaceMismatchedHead(TokenText(u), rest, TokenText(t), r);
  }

  /**
   * A head that starts like `T` but differs from it at the second character,
   * and has no further occurrence of `T`'s first character, is copied through.
   */
  lemma ReplaceMismatchedHead(x: string, rest: string, T: string, r: string)
    requires |x| >= 2 && |T| >= 2 && x[0] == T[0] && x[1] != T[1]
    requires Lacks(x[1..], T[0])
    ensures ReplaceAll(x + rest, T, r) == x + ReplaceAll(rest, T, r)
  {
    var s := x + rest;
    if |s| >= |T| {
      assert s[..|T|][1] == x[1];
      assert ReplaceAll(s, T, r) == [s[0]] + ReplaceAll(s[1..], T, r);
      assert s[1..] == x[1..] + rest;
      ReplaceAllSkips(x[1..], rest, T, r);
      assert x == [x[0]] + x[1..];
    } else {
      assert ReplaceAll(rest, T, r) == rest;
    }
  }

  lemma {:induction false} FillPlain(p: seq<Piece>, t: Token, r: string)
    requires Plain(p) && Lacks(r, '{')
    ensures Plain(Fill(p, t, r))
    decreases |p|
  {
    if p != [] {
      var q := Fill(p, t, r);
      assert q[1..] == Fill(p[1..], t, r);
      PlainTail(p);
      FillPlain(p[1..], t, r);
      forall i | 0 <= i < |q| && q[i].Text? ensures Lacks(q[i].text, '{') {
        if i > 0 {
          assert q[i] == q[1..][i - 1];
        }
      }
    }
  }

  /** Filling the three slots one after the other spells the pattern with all values given. */
  lemma {:induction false} FillThree(p: seq<Piece>, company: string, note: string, sender: string)
    ensures Flatten(Fill(Fill(Fill(p, Company, company), Note, note), Sender, sender)) ==
      Spell(p, company, note, sender)
    decreases |p|
  {
    if p != [] {
      var q1 := Fill(p, Company, company);
      var q2 := Fill(q1, Note, note);
      var q3 := Fill(q2, Sender, sender);
      assert q1[1..] == Fill(p[1..], Company, company);
      assert q2[1..] == Fill(q1[1..], Note, note);
      assert q3[1..] == Fill(q2[1..], Sender, sender);
      FillThree(p[1..], company, note, sender);
    }
  }

  /**
   * The three replace passes of the renderer, in their order, on a plain
   * pattern, spell the pattern with each placeholder given its value, as
   * long as the company name and the note bring no brace of their own.
   */
  lemma Render(p: seq<Piece>, company: string, note: string, sender: string)
    requires Plain(p) && Lacks(company, '{') && Lacks(note, '{')
    ensures ReplaceAll(ReplaceAll(ReplaceAll(Flatten(p), TokenText(Company), company),
      TokenText(Note), note), TokenText(Sender), sender) == Spell(p, company, note, sender)
  {
    var q1 := Fill(p, Company, company);
    ReplaceFlatten(p, Company, company);
    FillPlain(p, Company, company);
    var q2 := Fill(q1, Note, note);
    ReplaceFlatten(q1, Note, note);
    FillPlain(q1, Note, note);
    ReplaceFlatten(q2, Sender, sender);
    FillThree(p, company, note, sender);
  }

  /** A pattern without note and sender slots spells the same whatever their values. */
  lemma {:induction false} FillCompanyOnly(p: seq<Piece>, company: string, note: string, sender: string)
    requires Slot(Note) !in p && Slot(Sender) !in p
    ensures Flatten(Fill(p, Company, company)) == Spell(p, company, note, sender)
    decreases |p|
  {
    if p != [] {
      var q := Fill(p, Company, company);
      assert q[1..] == Fill(p[1..], Company, company);
      assert p == [p[0]] + p[1..];
      FillCompanyOnly(p[1..], company, note, sender);
    }
  }

  /**
   * The subject pass: replacing the company placeholder in a plain pattern
   * that has no other slots spells the pattern with the company name, whatever
   * the name contains.
   */
  lemma RenderCompanyOnly(p: seq<Piece>, company: string, note: string, sender: string)
    requires Plain(p) && Slot(Note) !in p && Slot(Sender) !in p
    ensures ReplaceAll(Flatten(p), TokenText(Company), company) == Spell(p, company, note, sender)
  {
    ReplaceFlatten(p, Company, company);
    FillCompanyOnly(p, company, note, sender);
  }

  /** Filling a slot with another placeholder's text spells the same as retargeting the slot. */
  lemma {:induction false} FillWithToken(p: seq<Piece>, t: Token, u: Token)
    ensures Flatten(Fill(p, t, TokenText(u))) == Flatten(Retarget(p, t, u))
    ensures Plain(p) ==> Plain(Retarget(p, t, u))
    decreases |p|
  {
    if p != [] {
      var q, w := Fill(p, t, TokenText(u)), Retarget(p, t, u);
      assert q[1..] == Fill(p[1..], t, TokenText(u));
      assert w[1..] == Retarget(p[1..], t, u);
      FillWithToken(p[1..], t, u);
      if Plain(p) {
        PlainTail(p);
        forall i | 0 <= i < |w| && w[i].Text? ensures Lacks(w[i].text, '{') {
          if i > 0 {
            assert w[i] == w[1..][i - 1];
          }
        }
      }
    }
  }

  /** Retargeting the company slots to sender slots spells the sender where the company stood. */
  lemma {:induction false} SpellRetarget(p: seq<Piece>, company: string, note: string, sender: string)
    ensures Spell(Retarget(p, Company, Sender), company, note, sender) == Spell(p, sender, note, sender)
    ensures Fill(Retarget(p, Company, Sender), Company, company) == Retarget(p, Company, Sender)
    decreases |p|
  {
    if p != [] {
      var w := Retarget(p, Company, Sender);
      assert w[1..] == Retarget(p[1..], Company, Sender);
      SpellRetarget(p[1..], company, note, sender);
    }
  }

  /**
   * The passes run in order: a company name that is itself the sender
   * placeholder is replaced by the sender name in the later pass, so the
   * sender name stands wherever the company was meant to.
   */
  lemma RenderCompanyIsSenderToken(p: seq<Piece>, note: string, sender: string)
    requires Plain(p) && Lacks(note, '{')
    ensures ReplaceAll(ReplaceAll(ReplaceAll(Flatten(p), TokenText(Company), TokenText(Sender)),
      TokenText(Note), note), TokenText(Sender), sender) == Spell(p, sender, note, sender)
  {
    var w := Retarget(p, Company, Sender);
    ReplaceFlatten(p, Company, TokenText(Sender));
    FillWithToken(p, Company, Sender);
    SpellRetarget(p, "", note, sender);
    ReplaceFlatten(w, Company, "");
    Render(w, "", note, sender);
  }

  /** A subject of the form "text, then the company placeholder". */
  lemma RenderHeadCompany(head: string, company: string)
    requires Lacks(head, '{')
    ensures Flatten([Text(head), Slot(Company)]) == head + TokenText(Company)
    ensures ReplaceAll(head + TokenText(Company), TokenText(Company), company) == head + company
  {
    var T := TokenText(Company);
    FlattenCons(Text(head), [Slot(Company)]);
    FlattenCons(Slot(Company), []);
    assert [Slot(Company)] + [] == [Slot(Company)] && [Text(head)] + [Slot(Company)] == [Text(head), Slot(Company)];
    ReplaceAllSkips(head, T, T, company);
    ReplaceAllAtFront("", T, company);
    assert T + "" == T;
  }

  /** A subject of the form "text, the company placeholder, text". */
  lemma RenderHeadCompanyTail(head: string, company: string, tail: string)
    requires Lacks(head, '{') && Lacks(tail, '{')
    ensures Flatten([Text(head), Slot(Company), Text(tail)]) == head + TokenText(Company) + tail
    ensures ReplaceAll(head + TokenText(Company) + tail, TokenText(Company), company) == head + company + tail
  {
    var T := TokenText(Company);
    FlattenCons(Text(head), [Slot(Company), Text(tail)]);
    FlattenCons(Slot(Company), [Text(tail)]);
    FlattenCons(Text(tail), []);
    assert [Text(tail)] + [] == [Text(tail)];
    assert [Slot(Company)] + [Text(tail)] == [Slot(Company), Text(tail)];
    assert [Text(head)] + [Slot(Company), Text(tail)] == [Text(head), Slot(Company), Text(tail)];
    assert head + T + tail == head + (T + tail);
    ReplaceAllSkips(head, T + tail, T, company);
    ReplaceAllAtFront(tail, T, company);
    ReplaceAllSkips(tail, "", T, company);
    assert tail + "" == tail;
  }
}
