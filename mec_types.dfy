/**
 * The shared domain types of the eligibility engine: categories, method keys,
 * per-method results, answers and the shape of a question.
 */
module MecTypes {
  import opened Wrappers

  /** An eligibility category: 1 (no restriction) up to 4 (unacceptable risk). */
  type Category = c: int | 1 <= c <= 4 witness 1

  /** The closed set of contraceptive method identifiers. */
  datatype MethodKey =
    | DIU_CU
    | DIU_LNG
    | IMPLANTE
    | AMPD_MENSUAL
    | AMPD_3M
    | PPS           // progestin-only pill
    | AHC_PILDORA
    | AHC_PARCHE
    | AHC_ANILLO
    | BARRERA
    | EC            // emergency contraception
    | NATURALES     // fertility-awareness methods

  /** The string a method key has at run time. */
  function KeyName(k: MethodKey): string {
    match k
    case DIU_CU => "DIU_CU"
    case DIU_LNG => "DIU_LNG"
    case IMPLANTE => "IMPLANTE"
    case AMPD_MENSUAL => "AMPD_MENSUAL"
    case AMPD_3M => "AMPD_3M"
    case PPS => "PPS"
    case AHC_PILDORA => "AHC_PILDORA"
    case AHC_PARCHE => "AHC_PARCHE"
    case AHC_ANILLO => "AHC_ANILLO"
    case BARRERA => "BARRERA"
    case EC => "EC"
    case NATURALES => "NATURALES"
  }

  /** All twelve keys of the type, in declaration order. */
  const AllKeys: seq<MethodKey> :=
    [DIU_CU, DIU_LNG, IMPLANTE, AMPD_MENSUAL, AMPD_3M, PPS,
     AHC_PILDORA, AHC_PARCHE, AHC_ANILLO, BARRERA, EC, NATURALES]

  /** The key type is closed: twelve members, `NATURALES` among them, with distinct names. */
  lemma MethodKeyClosed()
    ensures |AllKeys| == 12 && NATURALES in AllKeys
    ensures forall k: MethodKey :: k in AllKeys
    ensures forall i, j :: 0 <= i < j < |AllKeys| ==> KeyName(AllKeys[i]) != KeyName(AllKeys[j])
  {
    forall k: MethodKey ensures k in AllKeys {
      match k
      case DIU_CU => case DIU_LNG => case IMPLANTE => case AMPD_MENSUAL =>
      case AMPD_3M => case PPS => case AHC_PILDORA => case AHC_PARCHE =>
      case AHC_ANILLO => case BARRERA => case EC => case NATURALES =>
    }
  }

  /** No element of `s` occurs twice. */
  predicate Distinct<T(==)>(s: seq<T>) {
    forall i, j :: 0 <= i < j < |s| ==> s[i] != s[j]
  }

  /** The outcome for one method: its key, final category and ordered reason tags. */
  datatype MethodResult = MethodResult(key: MethodKey, category: Category, reason: seq<string>)

  /** A JavaScript number restricted to integers, with "not a number" explicit. */
  datatype Num = Int(v: int) | NaN

  /** One answer value: boolean, number, string or null. */
  datatype AnswerValue = Bool(b: bool) | Number(n: Num) | Str(s: string) | Null

  /** Answers keyed by question id; a missing key is a legal state (`undefined`). */
  type Answers = map<string, AnswerValue>

  /** The value a `when` clause expects: boolean, string or number. */
  datatype Expected = EBool(b: bool) | EStr(s: string) | ENum(n: int)

  /** One `when` clause: the question `id` must have answer `equals`. */
  datatype When = When(id: string, equals: Expected)

  datatype QuestionType = BooleanQ | NumberQ | SelectQ

  /**
   * A collectable question. The display strings (label, help text, option
   * labels) are not modelled; a select question keeps its option values.
   * Absent optional fields are `None`; an absent `required` is false.
   */
  datatype Question = Question(
    id: string,
    kind: QuestionType,
    required: bool,
    min: Option<int>,
    max: Option<int>,
    options: Option<seq<string>>,
    when: Option<seq<When>>)
}
