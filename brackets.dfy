/**
 * `probabilidade_por_idade`: the classifier's class probabilities for one
 * simulated case per fixed age bracket. The classifier's `predict_proba`
 * is an input; the random ethnicity the endpoint draws when none is given
 * is a nondeterministic choice.
 */
module Brackets {
  import opened Wrappers
  import opened Text

  /** An age bracket, bounds included. */
  datatype Bracket = Bracket(lo: nat, hi: nat)

  /** `faixas`, in the order the response lists them. */
  const Faixas: seq<Bracket> := [Bracket(0, 18), Bracket(19, 30), Bracket(31, 45), Bracket(46, 60), Bracket(61, 100)]

  /** The ethnicities drawn from when the request gives none. */
  const Etnias: set<string> := {"Branca", "Preta", "Parda"}

  const LocalizacaoPadrao: string := "Centro"

  /** The row handed to the classifier: `entrada`. */
  datatype ModelInput = ModelInput(idade: int, etnia: string, localizacao: string)

  /** One element of the response: the bracket's label and the probability of each class. */
  datatype BracketResult = BracketResult(faixa: string, probabilidades: seq<(string, real)>)

  /** `sum(faixa) // 2`: the bracket's midpoint, rounded down. */
  function Midpoint(b: Bracket): (m: int)
    requires b.lo <= b.hi
    ensures b.lo <= m <= b.hi
    ensures m - b.lo <= b.hi - m <= m - b.lo + 1
  {
    (b.lo + b.hi) / 2
  }

  /** The brackets are increasing and consecutive, so every age from 0 to 100 lies in exactly one of them. */
  lemma FaixasPartition(age: int)
    requires 0 <= age <= 100
    ensures exists i :: 0 <= i < |Faixas| && Faixas[i].lo <= age <= Faixas[i].hi
    ensures forall i, j ::
              (0 <= i < |Faixas| && 0 <= j < |Faixas| && Faixas[i].lo <= age <= Faixas[i].hi
               && Faixas[j].lo <= age <= Faixas[j].hi) ==> i == j
  {
    var i := if age <= 18 then 0 else if age <= 30 then 1 else if age <= 45 then 2 else if age <= 60 then 3 else 4;
    assert Faixas[i].lo <= age <= Faixas[i].hi;
  }

  /** `zip(classes, probs)`: pairs up to the shorter of the two. */
  function Zip<A, B>(a: seq<A>, b: seq<B>): (r: seq<(A, B)>)
    ensures |r| == if |a| <= |b| then |a| else |b|
    ensures forall i :: 0 <= i < |r| ==> r[i] == (a[i], b[i])
  {
    if a == [] || b == [] then [] else [(a[0], b[0])] + Zip(a[1..], b[1..])
  }

  /** `etnia if etnia and etnia != "todos" else random.choice(...)`: the ethnicity an input may carry. */
  predicate EtniaFor(etnia: Option<string>, chosen: string) {
    if etnia.Some? && etnia.value != "" && etnia.value != "todos" then chosen == etnia.value
    else chosen in Etnias
  }

  /** The input built for bracket b with ethnicity e. */
  function InputFor(b: Bracket, e: string): (x: ModelInput)
    requires b.lo <= b.hi
    ensures b.lo <= x.idade <= b.hi && x.etnia == e && x.localizacao == LocalizacaoPadrao
  {
    ModelInput(Midpoint(b), e, LocalizacaoPadrao)
  }

  /**
   * The loop of `probabilidade_por_idade`: five inputs, one per bracket in
   * order, each at its bracket's midpoint in "Centro", with the requested
   * ethnicity or a drawn one, and five results pairing each class with the
   * classifier's probability for that input.
   */
  method ProbabilityByAge(etnia: Option<string>, classes: seq<string>, proba: ModelInput -> seq<real>)
    returns (entradas: seq<ModelInput>, resultados: seq<BracketResult>)
    ensures |entradas| == |Faixas| && |resultados| == |Faixas|
    ensures forall i :: 0 <= i < |Faixas| ==>
              && entradas[i] == InputFor(Faixas[i], entradas[i].etnia)
              && EtniaFor(etnia, entradas[i].etnia)
    ensures forall i :: 0 <= i < |Faixas| ==>
              resultados[i] == BracketResult(RangeLabel(Faixas[i].lo, Faixas[i].hi), Zip(classes, proba(entradas[i])))
  {
    entradas := [];
    resultados := [];
    for i := 0 to |Faixas|
      invariant |entradas| == i && |resultados| == i
      invariant forall k :: 0 <= k < i ==>
                  entradas[k] == InputFor(Faixas[k], entradas[k].etnia) && EtniaFor(etnia, entradas[k].etnia)
      invariant forall k :: 0 <= k < i ==>
                  resultados[k] == BracketResult(RangeLabel(Faixas[k].lo, Faixas[k].hi), Zip(classes, proba(entradas[k])))
    {
      var faixa := Faixas[i];
      var idadeMedia := Midpoint(faixa);
      var e: string;
      if etnia.Some? && etnia.value != "" && etnia.value != "todos" {
        e := etnia.value;
      } else {
        assert "Branca" in Etnias;
        e :| e in Etnias;
      }
      var entrada := ModelInput(idadeMedia, e, LocalizacaoPadrao);
      var probs := proba(entrada);
      var resultado := BracketResult(RangeLabel(faixa.lo, faixa.hi), Zip(classes, probs));
      entradas := entradas + [entrada];
      resultados := resultados + [resultado];
    }
  }
}
