/** `YtbDwException`: the single error the client throws, a message with an integer code
    (0 when unspecified), and the code-indexed friendly description of it. */
module YtbDwException {
  import opened PhpValues

  datatype ApiError = ApiError(message: string, code: int)

  /** Fallback text the client uses when neither the transport nor the server says more. */
  const UnknownError := "Erreur inconnue"

  const InvalidParametersText := "Paramètres de requête invalides. Vérifiez l'URL YouTube et les paramètres."
  const InvalidKeyText := "Clé API invalide. Vérifiez votre clé API."
  const ForbiddenText := "Accès interdit. Upgradez votre compte ou vérifiez vos permissions."
  const NotFoundText := "Vidéo non trouvée. Vérifiez que l'URL YouTube est correcte et que la vidéo existe."
  const TooManyRequestsText := "Trop de requêtes. Vous avez dépassé votre quota quotidien."

  /** The codes that have a fixed friendly description. */
  const KnownCodes: set<int> := {400, 401, 403, 404, 429}

  /** `getFriendlyMessage()`: a fixed description for the five known codes, the raw
      message for every other code (0 included). */
  function FriendlyMessage(e: ApiError): (m: string)
    ensures e.code !in KnownCodes ==> m == e.message
    ensures e.code in KnownCodes ==>
              m in {InvalidParametersText, InvalidKeyText, ForbiddenText, NotFoundText, TooManyRequestsText}
  {
    match e.code
    case 400 => InvalidParametersText
    case 401 => InvalidKeyText
    case 403 => ForbiddenText
    case 404 => NotFoundText
    case 429 => TooManyRequestsText
    case _ => e.message
  }

  /** For a known code the friendly text does not depend on the raw message, and distinct
      known codes get distinct texts. */
  lemma FriendlyMessageByCode(e1: ApiError, e2: ApiError)
    requires e1.code in KnownCodes && e2.code in KnownCodes
    ensures FriendlyMessage(e1) == FriendlyMessage(e2) <==> e1.code == e2.code
  {
  }

  /** Each known code has its own description, whatever the server said: 400 invalid
      parameters, 401 invalid key, 403 forbidden, 404 video not found, 429 quota exceeded. */
  lemma FriendlyMessageTable(message: string)
    ensures FriendlyMessage(ApiError(message, 400)) == InvalidParametersText
    ensures FriendlyMessage(ApiError(message, 401)) == InvalidKeyText
    ensures FriendlyMessage(ApiError(message, 403)) == ForbiddenText
    ensures FriendlyMessage(ApiError(message, 404)) == NotFoundText
    ensures FriendlyMessage(ApiError(message, 429)) == TooManyRequestsText
  {
  }

  /** The exception constructor takes `string $message`: the message a decoded JSON field
      becomes. */
  function MessageOf(v: Value): string {
    match v
    case Str(s) => s
    case Bool(b) => if b then "1" else ""
    case _ => ""
  }

  /** The exception constructor takes `int $code`: the code a decoded JSON field becomes. */
  function CodeOf(v: Value): int {
    match v
    case Int(i) => i
    case Bool(b) => if b then 1 else 0
    case _ => 0
  }
}
