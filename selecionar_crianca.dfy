/** public/js/selecionarCrianca.js: the child-selection page. The CPF check, the initials
    of a card and the split of the children by the user's role are functions; the
    browser session, whose storage, query string and history the script updates, is a
    class. */
module SelecionarCrianca {
  import opened JsValues
  import opened Text
  import Uri
  import Http

  /** `Array.prototype.filter`: the elements satisfying `p`, in their order. */
  function Filter<T>(p: T -> bool, s: seq<T>): (r: seq<T>)
    ensures |r| <= |s|
    ensures forall i :: 0 <= i < |r| ==> p(r[i])
  {
    if s == [] then [] else (if p(s[0]) then [s[0]] else []) + Filter(p, s[1..])
  }

  /** An element is kept exactly when it occurs and satisfies `p`. */
  lemma {:induction false} FilterMembership<T>(p: T -> bool, s: seq<T>, x: T)
    ensures x in Filter(p, s) <==> x in s && p(x)
  {
    if s != [] {
      FilterMembership(p, s[1..], x);
      assert s == [s[0]] + s[1..];
    }
  }

  /** Filtering works piece by piece, so it keeps the relative order of what it keeps. */
  lemma {:induction false} FilterAppend<T>(p: T -> bool, a: seq<T>, b: seq<T>)
    ensures Filter(p, a + b) == Filter(p, a) + Filter(p, b)
  {
    if a == [] {
      assert a + b == b;
    } else {
      assert (a + b)[1..] == a[1..] + b;
      FilterAppend(p, a[1..], b);
    }
  }

  /** A sequence whose elements all satisfy `p` is kept whole. */
  lemma {:induction false} FilterKeepsAll<T>(p: T -> bool, s: seq<T>)
    requires forall i :: 0 <= i < |s| ==> p(s[i])
    ensures Filter(p, s) == s
  {
    if s != [] {
      FilterKeepsAll(p, s[1..]);
    }
  }

  /** A sequence none of whose elements satisfies `p` is dropped whole. */
  lemma {:induction false} FilterDropsAll<T>(p: T -> bool, s: seq<T>)
    requires forall i :: 0 <= i < |s| ==> !p(s[i])
    ensures Filter(p, s) == []
  {
    if s != [] {
      FilterDropsAll(p, s[1..]);
    }
  }

  // ---------------------------------------------------------------- CPF

  /** `String(cpf || '')`. */
  function CpfText(cpf: JsValue): string {
    if Truthy(cpf) then ToJsString(cpf) else ""
  }

  /** `s.replace(/\D/g, '')`: the decimal digits of `s`, in order. */
  function Digits(s: string): string {
    Filter(IsDigit, s)
  }

  /** `isValidCPF(cpf)`: eleven decimal digits once everything else is removed; the
      check digits are not verified. */
  predicate IsValidCPF(cpf: JsValue)
    ensures IsValidCPF(cpf) ==> Truthy(cpf) && |CpfText(cpf)| >= 11
  {
    |Digits(CpfText(cpf))| == 11
  }

  /** Punctuation and any other non-digit character anywhere in the text do not change
      the verdict. */
  lemma NonDigitsDoNotMatter(a: string, c: char, b: string)
    requires !IsDigit(c)
    ensures IsValidCPF(Str(a + [c] + b)) <==> IsValidCPF(Str(a + b))
  {
    FilterAppend(IsDigit, a + [c], b);
    FilterAppend(IsDigit, a, [c]);
    FilterAppend(IsDigit, a, b);
    assert Filter(IsDigit, [c]) == [];
    if a + b == [] {
      assert Digits(a + [c] + b) == [];
    }
  }

  /** Null and undefined are never valid: their text is empty. */
  lemma NullishCpfIsInvalid(cpf: JsValue)
    requires IsNullish(cpf)
    ensures !IsValidCPF(cpf)
  {
  }

  /** Eleven digits are valid as they stand; ten are not. */
  lemma PlainCpfExamples(eleven: string, ten: string)
    requires |eleven| == 11 && |ten| == 10
    requires forall i :: 0 <= i < |eleven| ==> IsDigit(eleven[i])
    requires forall i :: 0 <= i < |ten| ==> IsDigit(ten[i])
    ensures IsValidCPF(Str(eleven)) && !IsValidCPF(Str(ten))
  {
    FilterKeepsAll(IsDigit, eleven);
    FilterKeepsAll(IsDigit, ten);
  }

  // ---------------------------------------------------------------- Initials

  /** `\w`: an ASCII letter, a digit or `_`. */
  predicate IsWordChar(c: char) {
    IsAsciiLower(c) || IsAsciiUpper(c) || IsDigit(c) || c == '_'
  }

  /** The match `/\b\w/` makes at a character `c`: `c` itself when it is a word character
      and the character before it (`afterWord`) is not. */
  function StartAt(afterWord: bool, c: char): string {
    if IsWordChar(c) && !afterWord then [c] else []
  }

  /** The characters of `s` where `/\b\w/` matches, in order, `afterWord` telling whether
      the character before `s` is a word character. */
  function WordStartsFrom(afterWord: bool, s: string): (r: string)
    ensures |r| <= |s|
    decreases |s|
  {
    if s == [] then [] else StartAt(afterWord, s[0]) + WordStartsFrom(IsWordChar(s[0]), s[1..])
  }

  /** `s.match(/\b\w/g) || []`: the characters at word starts, in order. */
  function WordStarts(s: string): (r: string)
    ensures |r| <= |s|
    ensures forall i :: 0 <= i < |r| ==> IsWordChar(r[i])
  {
    WordStartsAreWordChars(false, s);
    WordStartsFrom(false, s)
  }

  /** Only word characters start words. */
  lemma {:induction false} WordStartsAreWordChars(afterWord: bool, s: string)
    ensures forall i :: 0 <= i < |WordStartsFrom(afterWord, s)| ==> IsWordChar(WordStartsFrom(afterWord, s)[i])
    decreases |s|
  {
    if s != [] {
      WordStartsAreWordChars(IsWordChar(s[0]), s[1..]);
    }
  }

  /** Whether the character just before what follows `a` is a word character. */
  function EndsInWord(afterWord: bool, a: string): bool {
    if a == [] then afterWord else IsWordChar(a[|a| - 1])
  }

  lemma AppendAssoc<T>(x: seq<T>, y: seq<T>, z: seq<T>)
    ensures x + (y + z) == (x + y) + z
  {
  }

  /** Scanning `a + b` is scanning `a`, then `b` after `a`'s last character. */
  lemma {:induction false} WordStartsFromConcat(afterWord: bool, a: string, b: string)
    ensures WordStartsFrom(afterWord, a + b)
         == WordStartsFrom(afterWord, a) + WordStartsFrom(EndsInWord(afterWord, a), b)
    decreases |a|
  {
    if a == [] {
      assert a + b == b;
    } else {
      var rest := a[1..];
      var w := IsWordChar(a[0]);
      assert EndsInWord(w, rest) == EndsInWord(afterWord, a) by {
        if rest != [] {
          assert rest[|rest| - 1] == a[|a| - 1];
        }
      }
      assert (a + b)[1..] == rest + b;
      assert (a + b)[0] == a[0];
      WordStartsFromConcat(w, rest, b);
      var here, x, y := StartAt(afterWord, a[0]), WordStartsFrom(w, rest), WordStartsFrom(EndsInWord(w, rest), b);
      assert WordStartsFrom(afterWord, a + b) == here + (x + y);
      assert WordStartsFrom(afterWord, a) == here + x;
      AppendAssoc(here, x, y);
    }
  }

  /** After a character that is not a word character, the word starts of what follows are
      those it has on its own: a name's initials are its words' initials. */
  lemma WordStartsConcat(a: string, b: string)
    requires a == [] || !IsWordChar(a[|a| - 1])
    ensures WordStarts(a + b) == WordStarts(a) + WordStarts(b)
  {
    WordStartsFromConcat(false, a, b);
  }

  /** `crianca.nome || "Sem nome"`; `None` when the name is a truthy value that is not a
      string, on which `.match` throws. */
  function NomeText(nome: JsValue): Option<string> {
    if !Truthy(nome) then Some("Sem nome")
    else if nome.Str? then Some(nome.s)
    else None
  }

  /** `(nome.match(/\b\w/g) || []).slice(0, 2).join("").toUpperCase()`. */
  function Initials(nome: JsValue): (r: Option<string>)
    ensures r.Some? <==> !Truthy(nome) || nome.Str?
    ensures r.Some? ==>
      |r.value| <= 2
      && forall i :: 0 <= i < |r.value| ==> IsAsciiUpper(r.value[i]) || IsDigit(r.value[i]) || r.value[i] == '_'
  {
    match NomeText(nome)
    case None => None
    case Some(text) =>
      var starts := WordStarts(text);
      var two := if |starts| <= 2 then starts else starts[..2];
      WordCharsUpper(two);
      Some(Upper(two))
  }

  /** Upper-casing word characters keeps one character each, in `[A-Z0-9_]`. */
  lemma {:induction false} WordCharsUpper(s: string)
    requires forall i :: 0 <= i < |s| ==> IsWordChar(s[i])
    ensures |Upper(s)| == |s|
    ensures forall i :: 0 <= i < |s| ==>
      IsAsciiUpper(Upper(s)[i]) || IsDigit(Upper(s)[i]) || Upper(s)[i] == '_'
  {
    if s != [] {
      WordCharsUpper(s[1..]);
    }
  }

  /** Inside a word, that is after a word character, a run of word characters holds no
      word start. */
  lemma {:induction false} NoWordStartInsideWord(w: string)
    requires forall i :: 0 <= i < |w| ==> IsWordChar(w[i])
    ensures WordStartsFrom(true, w) == []
  {
    if w != [] {
      NoWordStartInsideWord(w[1..]);
    }
  }

  /** A run of word characters has one word start, its first character. */
  lemma WordStartsOfWord(w: string)
    requires w != [] && forall i :: 0 <= i < |w| ==> IsWordChar(w[i])
    ensures WordStarts(w) == [w[0]]
  {
    NoWordStartInsideWord(w[1..]);
  }

  /** Text added at the end never changes the word starts already found. */
  lemma WordStartsPrefix(a: string, b: string)
    ensures WordStarts(a) <= WordStarts(a + b)
  {
    WordStartsFromConcat(false, a, b);
  }

  /** A word followed by a separator has one word start, the word's first character. */
  lemma WordThenSeparator(w: string, sep: char)
    requires w != [] && forall i :: 0 <= i < |w| ==> IsWordChar(w[i])
    requires !IsWordChar(sep)
    ensures WordStarts(w + [sep]) == [w[0]]
  {
    WordStartsFromConcat(false, w, [sep]);
    WordStartsOfWord(w);
    assert [sep][1..] == [];
    assert WordStartsFrom(true, [sep]) == StartAt(true, sep) + WordStartsFrom(IsWordChar(sep), []);
  }

  /** A name text with at least two word starts has the first two, upper-cased, as its
      initials. */
  lemma InitialsTakeTwo(nome: JsValue, text: string)
    requires NomeText(nome) == Some(text) && |WordStarts(text)| >= 2
    ensures Initials(nome) == Some(Upper(WordStarts(text)[..2]))
  {
    if |WordStarts(text)| == 2 {
      assert WordStarts(text)[..2] == WordStarts(text);
    }
  }

  /** A name that starts with two words separated by a non-word character has the
      upper-cased first letters of those two words as its initials, whatever follows. */
  lemma NameInitials(w1: string, sep: char, w2: string, tail: string)
    requires w1 != [] && forall i :: 0 <= i < |w1| ==> IsWordChar(w1[i])
    requires w2 != [] && forall i :: 0 <= i < |w2| ==> IsWordChar(w2[i])
    requires !IsWordChar(sep)
    ensures Initials(Str(w1 + [sep] + w2 + tail)) == Some(Upper([w1[0], w2[0]]))
  {
    var head := w1 + [sep];
    var name := w1 + [sep] + w2 + tail;
    assert name == head + (w2 + tail);
    WordThenSeparator(w1, sep);
    WordStartsConcat(head, w2 + tail);
    WordStartsOfWord(w2);
    WordStartsPrefix(w2, tail);
    var starts := WordStarts(name);
    assert starts == [w1[0]] + WordStarts(w2 + tail);
    assert starts[..2] == [w1[0], w2[0]];
    InitialsTakeTwo(Str(name), name);
  }

  /** The fallback name "Sem nome" has two word starts, `S` and `n`. */
  lemma FallbackWordStarts(fallback: string)
    requires fallback == "Sem nome"
    ensures WordStarts(fallback) == [fallback[0], fallback[4]]
  {
    var sem, nomeWord := fallback[..3], fallback[4..];
    assert fallback == (sem + [' ']) + nomeWord;
    WordThenSeparator(sem, ' ');
    WordStartsOfWord(nomeWord);
    WordStartsConcat(sem + [' '], nomeWord);
  }

  /** A card for a child with no name shows "SN", from "Sem nome". */
  lemma MissingNameInitials(nome: JsValue, fallback: string)
    requires !Truthy(nome) && fallback == "Sem nome"
    ensures Initials(nome) == Some("SN")
  {
    FallbackWordStarts(fallback);
    var sn := WordStarts(fallback);
    InitialsTakeTwo(nome, fallback);
    assert sn[..2] == sn == [fallback[0], fallback[4]] == "Sn";
    assert sn[1..] == "n" && "n"[1..] == [];
    assert Upper("n") == UpperChar('n') + Upper([]) == "N";
    assert Upper(sn) == UpperChar('S') + Upper("n") == "SN";
  }

  // ---------------------------------------------------------------- Roles

  /** A child as `GET /api/criancas` lists it, with the user's role towards it. */
  datatype Crianca = Crianca(idCrianca: JsValue, nome: JsValue, papelDoUsuario: JsValue)

  predicate IsResponsavelRole(c: Crianca) {
    c.papelDoUsuario == Str("responsavel") || c.papelDoUsuario == Str("ambos")
  }

  predicate IsCuidadorRole(c: Crianca) {
    c.papelDoUsuario == Str("cuidador")
  }

  /** The children the user is responsible for. */
  function Responsaveis(cs: seq<Crianca>): (r: seq<Crianca>)
    ensures |r| <= |cs|
    ensures forall c :: c in r <==> c in cs && IsResponsavelRole(c)
  {
    forall c ensures c in Filter(IsResponsavelRole, cs) <==> c in cs && IsResponsavelRole(c) {
      FilterMembership(IsResponsavelRole, cs, c);
    }
    Filter(IsResponsavelRole, cs)
  }

  /** The children the user looks after. */
  function Cuidadores(cs: seq<Crianca>): (r: seq<Crianca>)
    ensures |r| <= |cs|
    ensures forall c :: c in r <==> c in cs && IsCuidadorRole(c)
  {
    forall c ensures c in Filter(IsCuidadorRole, cs) <==> c in cs && IsCuidadorRole(c) {
      FilterMembership(IsCuidadorRole, cs, c);
    }
    Filter(IsCuidadorRole, cs)
  }

  /** The two lists are disjoint; a child with the role `responsavel` or `ambos` is in
      the first, one with `cuidador` in the second, and any other role in neither. */
  lemma RolesPartition(cs: seq<Crianca>, c: Crianca)
    ensures !(c in Responsaveis(cs) && c in Cuidadores(cs))
    ensures c in Responsaveis(cs) <==> c in cs && (c.papelDoUsuario == Str("responsavel") || c.papelDoUsuario == Str("ambos"))
    ensures c in Cuidadores(cs) <==> c in cs && c.papelDoUsuario == Str("cuidador")
  {
    FilterMembership(IsResponsavelRole, cs, c);
    FilterMembership(IsCuidadorRole, cs, c);
  }

  /** Both lists keep the order of the response: the list for a concatenation is the
      concatenation of the lists. */
  lemma RolesKeepOrder(a: seq<Crianca>, b: seq<Crianca>)
    ensures Responsaveis(a + b) == Responsaveis(a) + Responsaveis(b)
    ensures Cuidadores(a + b) == Cuidadores(a) + Cuidadores(b)
  {
    FilterAppend(IsResponsavelRole, a, b);
    FilterAppend(IsCuidadorRole, a, b);
  }

  // ---------------------------------------------------------------- Session token

  const TOKEN_KEY: string := "token"

  /** A query parameter of the page's URL, as name and value after decoding. */
  type Param = (string, string)

  /** `params.get(name)`: the value of the first parameter with that name. */
  function QueryGet(query: seq<Param>, name: string): (r: Option<string>)
    ensures r.None? <==> forall i :: 0 <= i < |query| ==> query[i].0 != name
    ensures r.Some? ==> (name, r.value) in query
  {
    if query == [] then None
    else if query[0].0 == name then Some(query[0].1)
    else QueryGet(query[1..], name)
  }

  /** Parameters with other names before the first one named `name` do not hide it. */
  lemma {:induction false} QueryGetFirst(before: seq<Param>, name: string, v: string, after: seq<Param>)
    requires forall i :: 0 <= i < |before| ==> before[i].0 != name
    ensures QueryGet(before + [(name, v)] + after, name) == Some(v)
  {
    if before != [] {
      assert (before + [(name, v)] + after)[1..] == before[1..] + [(name, v)] + after;
      QueryGetFirst(before[1..], name, v, after);
    }
  }

  predicate IsNotToken(p: Param) {
    p.0 != TOKEN_KEY
  }

  /** `params.delete('token')`: every `token` parameter goes, the others stay in order. */
  function WithoutToken(query: seq<Param>): (rest: seq<Param>)
    ensures forall p :: p in rest <==> p in query && p.0 != TOKEN_KEY
    ensures QueryGet(rest, TOKEN_KEY).None?
  {
    forall p ensures p in Filter(IsNotToken, query) <==> p in query && IsNotToken(p) {
      FilterMembership(IsNotToken, query, p);
    }
    Filter(IsNotToken, query)
  }

  /** The URL the page is left at: the path alone when no parameter remains, otherwise
      the path, `?` and the serialized parameters. */
  function CleanUrl(pathname: string, rest: seq<Param>): (url: string)
    ensures pathname <= url
    ensures url == pathname <==> rest == []
    ensures rest != [] ==> url[|pathname|] == '?'
  {
    var search := Uri.SerializeParams(rest);
    pathname + (if search != [] then "?" + search else "")
  }

  /** The token the URL carries, when it is truthy. */
  function UrlToken(query: seq<Param>): (r: Option<string>)
    ensures r.Some? ==> r.value != "" && (TOKEN_KEY, r.value) in query
    ensures r.Some? <==> QueryGet(query, TOKEN_KEY).Some? && QueryGet(query, TOKEN_KEY).value != ""
    ensures r.Some? ==> r == QueryGet(query, TOKEN_KEY)
  {
    match QueryGet(query, TOKEN_KEY)
    case Some(t) => if t != "" then Some(t) else None
    case None => None
  }

  /** `localStorage.getItem('token')`, when it is truthy. */
  function StoredToken(storage: map<string, string>): (r: Option<string>)
    ensures r.Some? ==> TOKEN_KEY in storage && r.value == storage[TOKEN_KEY] != ""
    ensures r.None? ==> TOKEN_KEY !in storage || storage[TOKEN_KEY] == ""
  {
    if TOKEN_KEY in storage && storage[TOKEN_KEY] != "" then Some(storage[TOKEN_KEY]) else None
  }

  /** Once a URL token has been persisted and removed from the URL, the next read finds
      the same token in storage, and no longer in the URL. */
  lemma PersistedTokenIsReadBack(storage: map<string, string>, query: seq<Param>)
    requires UrlToken(query).Some?
    ensures UrlToken(WithoutToken(query)).None?
    ensures StoredToken(storage[TOKEN_KEY := UrlToken(query).value]) == UrlToken(query)
  {
  }

  /** A child about to be created, as sent in the request body. */
  datatype NovaCrianca = NovaCrianca(nome: string, cpf: string, dataNascimento: string)

  /** The answer to `POST /api/criancas`: accepted, refused with the payload's `message`
      and `error` ("" when absent or when the body is not JSON) and the status text, or no
      answer at all. */
  datatype AddReply = Created | Refused(message: string, error: string, statusText: string) | Unreachable

  /** What submitting the form led to. `Invalid`: an error notice and no request.
      `SessionExpired`: an info notice and a redirect to `/`. `Posted`: one request
      carrying `token`, and the notice shown after its answer (the modal is closed and the
      list reloaded exactly when `added`). */
  datatype AddOutcome =
    | Invalid(error: string)
    | SessionExpired
    | Posted(token: string, body: NovaCrianca, added: bool, notice: string)

  const NOME_REQUIRED: string := "Informe o nome da crian\U{E7}a."
  const CPF_INVALID: string := "Informe um CPF v\U{E1}lido (11 d\U{ED}gitos)."
  const DATE_INVALID: string := "Informe uma data de nascimento v\U{E1}lida."
  const ADDED: string := "Crian\U{E7}a adicionada com sucesso!"
  const ADD_FAILED: string := "Erro ao adicionar crian\U{E7}a."
  const ADD_UNREACHABLE: string := "Erro de conex\U{E3}o ao adicionar crian\U{E7}a."

  /** `payload?.message || payload?.error || response.statusText || 'Erro ao adicionar criança.'` */
  function AddRefusal(message: string, error: string, statusText: string): (r: string)
    ensures r != ""
    ensures message != "" ==> r == message
    ensures message == "" && error != "" ==> r == error
    ensures message == "" && error == "" && statusText != "" ==> r == statusText
    ensures message == "" && error == "" && statusText == "" ==> r == ADD_FAILED
  {
    if message != "" then message
    else if error != "" then error
    else if statusText != "" then statusText
    else ADD_FAILED
  }

  /** `isValidDate(iso)`: false on the empty string; otherwise whether `new Date(iso)`
      is a valid date, which `parses` says. */
  predicate IsValidDate(iso: string, parses: bool)
    ensures iso == "" ==> !IsValidDate(iso, parses)
    ensures iso != "" ==> (IsValidDate(iso, parses) <==> parses)
  {
    iso != "" && parses
  }

  /** The children `GET /api/criancas` lists, split by the user's role with the initials
      each card shows, or why there is nothing to show. */
  datatype ListView =
    | ListSessionExpired
    | ListFailed
    | Lists(responsaveis: seq<Crianca>, cuidadores: seq<Crianca>,
            responsavelInitials: seq<string>, cuidadorInitials: seq<string>)

  /** Every card of `cs` can be rendered: no child has a truthy name that is not a string,
      on which `nome.match` would throw. */
  predicate CardsRender(cs: seq<Crianca>) {
    forall i :: 0 <= i < |cs| ==> Initials(cs[i].nome).Some?
  }

  /** `cs.forEach(c => renderCard(c, container))`, as far as the initials go: the initials
      of each card in order, or `None` when a card throws and the loop stops there. */
  method RenderCards(cs: seq<Crianca>) returns (initials: Option<seq<string>>)
    ensures initials.Some? <==> CardsRender(cs)
    ensures initials.Some? ==>
      |initials.value| == |cs|
      && forall i :: 0 <= i < |cs| ==> Initials(cs[i].nome) == Some(initials.value[i])
  {
    var acc: seq<string> := [];
    var i := 0;
    while i < |cs|
      invariant 0 <= i <= |cs|
      invariant |acc| == i
      invariant forall j :: 0 <= j < i ==> Initials(cs[j].nome) == Some(acc[j])
    {
      var card := Initials(cs[i].nome);
      if card.None? {
        return None;
      }
      acc := acc + [card.value];
      i := i + 1;
    }
    return Some(acc);
  }

  /** The state of the browser the script reads and writes: local storage, the path
      and decoded query string of the current URL, and the last URL given to
      `history.replaceState`. */
  class BrowserSession {
    var storage: map<string, string>
    var pathname: string
    var query: seq<Param>
    var replacedUrl: Option<string>

    constructor(storage: map<string, string>, pathname: string, query: seq<Param>)
      ensures this.storage == storage && this.pathname == pathname && this.query == query
      ensures replacedUrl.None?
    {
      this.storage := storage;
      this.pathname := pathname;
      this.query := query;
      replacedUrl := None;
    }

    /** `getTokenAndPersist()`: a truthy URL token wins; it is written to storage and
        removed from the URL, the other parameters staying. Otherwise a truthy stored
        token is used, and nothing changes. The result is absent only when neither
        exists. */
    method GetTokenAndPersist() returns (token: Option<string>)
      modifies this
      ensures UrlToken(old(query)).Some? ==>
        token == UrlToken(old(query))
        && storage == old(storage)[TOKEN_KEY := token.value]
        && query == WithoutToken(old(query))
        && replacedUrl == Some(CleanUrl(pathname, query))
      ensures UrlToken(old(query)).None? ==>
        token == StoredToken(old(storage))
        && storage == old(storage) && query == old(query) && replacedUrl == old(replacedUrl)
      ensures pathname == old(pathname)
    {
      var fromUrl := QueryGet(query, TOKEN_KEY);
      if fromUrl.Some? && fromUrl.value != "" {
        storage := storage[TOKEN_KEY := fromUrl.value];
        query := WithoutToken(query);
        replacedUrl := Some(CleanUrl(pathname, query));
        return fromUrl;
      }
      if TOKEN_KEY in storage && storage[TOKEN_KEY] != "" {
        return Some(storage[TOKEN_KEY]);
      }
      return None;
    }

    /** `carregarCriancas()`: without a token, the session-expired notice; otherwise the
        listed children split by role and rendered card by card, or the error notice when
        the request fails or a card throws. The token is read and persisted as
        `getTokenAndPersist` does. */
    method CarregarCriancas(reply: Http.ListReply<Crianca>) returns (view: ListView)
      modifies this
      ensures view == ListSessionExpired <==>
        UrlToken(old(query)).None? && StoredToken(old(storage)).None?
      ensures view.Lists? <==>
        (UrlToken(old(query)).Some? || StoredToken(old(storage)).Some?)
        && reply.Listed? && CardsRender(Responsaveis(reply.rows)) && CardsRender(Cuidadores(reply.rows))
      ensures view.Lists? ==>
        && view.responsaveis == Responsaveis(reply.rows)
        && view.cuidadores == Cuidadores(reply.rows)
        && |view.responsavelInitials| == |view.responsaveis|
        && |view.cuidadorInitials| == |view.cuidadores|
        && (forall i :: 0 <= i < |view.responsaveis| ==>
              Initials(view.responsaveis[i].nome) == Some(view.responsavelInitials[i]))
        && (forall i :: 0 <= i < |view.cuidadores| ==>
              Initials(view.cuidadores[i].nome) == Some(view.cuidadorInitials[i]))
      ensures UrlToken(old(query)).Some? ==>
        storage == old(storage)[TOKEN_KEY := UrlToken(old(query)).value]
        && query == WithoutToken(old(query))
        && replacedUrl == Some(CleanUrl(pathname, query))
      ensures UrlToken(old(query)).None? ==>
        storage == old(storage) && query == old(query) && replacedUrl == old(replacedUrl)
      ensures pathname == old(pathname)
    {
      var token := GetTokenAndPersist();
      if token.None? {
        return ListSessionExpired;
      }
      match reply
      case Listed(rows) =>
        var rs := Responsaveis(rows);
        var cs := Cuidadores(rows);
        var ri := RenderCards(rs);
        if ri.None? {
          return ListFailed;
        }
        var ci := RenderCards(cs);
        if ci.None? {
          return ListFailed;
        }
        view := Lists(rs, cs, ri.value, ci.value);
      case _ =>
        view := ListFailed;
    }

    /** `adicionarNovaCrianca()`: the trimmed name, CPF and birth date are checked in that
        order, each failure ending with its notice before any token is read or request
        made; then a missing token ends the session, and otherwise the child is posted. */
    method AdicionarNovaCrianca(nomeInput: string, cpfInput: string, dataInput: string,
                                dateParses: bool, reply: AddReply) returns (out: AddOutcome)
      modifies this
      ensures Trim(nomeInput) == "" ==> out == Invalid(NOME_REQUIRED)
      ensures Trim(nomeInput) != "" && !IsValidCPF(Str(Trim(cpfInput))) ==> out == Invalid(CPF_INVALID)
      ensures (Trim(nomeInput) != "" && IsValidCPF(Str(Trim(cpfInput)))
               && !IsValidDate(Trim(dataInput), dateParses)) ==> out == Invalid(DATE_INVALID)
      ensures out.Invalid? <==>
        Trim(nomeInput) == "" || !IsValidCPF(Str(Trim(cpfInput))) || !IsValidDate(Trim(dataInput), dateParses)
      ensures out.Invalid? ==> out.error in {NOME_REQUIRED, CPF_INVALID, DATE_INVALID}
      ensures out.Invalid? ==>
        storage == old(storage) && query == old(query) && replacedUrl == old(replacedUrl)
      ensures !out.Invalid? && UrlToken(old(query)).Some? ==>
        storage == old(storage)[TOKEN_KEY := UrlToken(old(query)).value]
        && query == WithoutToken(old(query))
        && replacedUrl == Some(CleanUrl(pathname, query))
      ensures !out.Invalid? && UrlToken(old(query)).None? ==>
        storage == old(storage) && query == old(query) && replacedUrl == old(replacedUrl)
      ensures !out.Invalid? ==>
        Trim(nomeInput) != "" && IsValidCPF(Str(Trim(cpfInput))) && IsValidDate(Trim(dataInput), dateParses)
      ensures out.SessionExpired? <==> !out.Invalid? && UrlToken(old(query)).None? && StoredToken(old(storage)).None?
      ensures out.Posted? ==>
        out.body == NovaCrianca(Trim(nomeInput), Trim(cpfInput), Trim(dataInput))
        && out.token != ""
        && (UrlToken(old(query)).Some? ==> out.token == UrlToken(old(query)).value)
        && (UrlToken(old(query)).None? ==> out.token == StoredToken(old(storage)).value)
        && (out.added <==> reply.Created?)
        && out.notice == match reply
             case Created => ADDED
             case Refused(m, e, st) => AddRefusal(m, e, st)
             case Unreachable => ADD_UNREACHABLE
      ensures pathname == old(pathname)
    {
      var nome := Trim(nomeInput);
      var cpf := Trim(cpfInput);
      var dataNascimento := Trim(dataInput);
      if nome == "" {
        return Invalid(NOME_REQUIRED);
      }
      if cpf == "" || !IsValidCPF(Str(cpf)) {
        return Invalid(CPF_INVALID);
      }
      if !IsValidDate(dataNascimento, dateParses) {
        return Invalid(DATE_INVALID);
      }
      var token := GetTokenAndPersist();
      if token.None? {
        return SessionExpired;
      }
      var body := NovaCrianca(nome, cpf, dataNascimento);
      match reply
      case Created =>
        out := Posted(token.value, body, true, ADDED);
      case Refused(m, e, st) =>
        out := Posted(token.value, body, false, AddRefusal(m, e, st));
      case Unreachable =>
        out := Posted(token.value, body, false, ADD_UNREACHABLE);
    }
  }
}
