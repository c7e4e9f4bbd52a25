/** The knowledge tables of the page script: for a pest name, its scientific
    name, a description, three recommended remedies and a severity. Each table
    is an object literal keyed by the eight pest names, read with a fixed
    default for any other name. */
module Knowledge {
  import opened Outcomes

  /** The eight pests the tables know. */
  datatype Pest =
    | GusanoCogollero | MoscaBlanca | RoyaDelCafe | Pulgon
    | Nematodos | TaladroDelArroz | PicudoDelTabaco | MohoGris

  /** The key under which each table lists a pest. */
  function PestName(p: Pest): string
  {
    match p
    case GusanoCogollero => "Gusano cogollero"
    case MoscaBlanca => "Mosca blanca"
    case RoyaDelCafe => "Roya del café"
    case Pulgon => "Pulgón"
    case Nematodos => "Nemátodos"
    case TaladroDelArroz => "Taladro del arroz"
    case PicudoDelTabaco => "Picudo del tabaco"
    case MohoGris => "Moho gris"
  }

  /** The pest a name is the key of, if any: the tables' own keys and
      nothing else. */
  function PestNamed(name: string): (r: Option<Pest>)
    ensures r.Some? ==> PestName(r.value) == name
    ensures r.None? ==> forall p: Pest :: PestName(p) != name
  {
    if name == "Gusano cogollero" then Some(GusanoCogollero)
    else if name == "Mosca blanca" then Some(MoscaBlanca)
    else if name == "Roya del café" then Some(RoyaDelCafe)
    else if name == "Pulgón" then Some(Pulgon)
    else if name == "Nemátodos" then Some(Nematodos)
    else if name == "Taladro del arroz" then Some(TaladroDelArroz)
    else if name == "Picudo del tabaco" then Some(PicudoDelTabaco)
    else if name == "Moho gris" then Some(MohoGris)
    else None
  }

  /** Every pest is found under its own key. */
  lemma PestNamedRoundTrip(p: Pest)
    ensures PestNamed(PestName(p)) == Some(p)
  {
  }

  // ---- The four tables, entry by entry ----

  function ScientificOf(p: Pest): string
  {
    match p
    case GusanoCogollero => "Spodoptera frugiperda"
    case MoscaBlanca => "Bemisia tabaci"
    case RoyaDelCafe => "Hemileia vastatrix"
    case Pulgon => "Aphidoidea"
    case Nematodos => "Nematoda"
    case TaladroDelArroz => "Chilo plejadellus"
    case PicudoDelTabaco => "Anthonomus grandis"
    case MohoGris => "Botrytis cinerea"
  }

  /** The long texts of this table and the next are written as
      concatenations of short literals; each joins to the page's text. */
  function DescriptionOf(p: Pest): (r: string)
    ensures r != NoDescription
  {
    match p
    case GusanoCogollero =>
      "Plaga común en maíz " + "que ataca las hojas " + "jóvenes y el cogollo. " +
      "Se observan daños en " + "forma de mordeduras " + "irregulares."
    case MoscaBlanca =>
      "Insecto pequeño que " + "afecta múltiples " + "cultivos " +
      "transmitiendo virus. " + "Se observan colonias " + "en el envés de las " +
      "hojas."
    case RoyaDelCafe =>
      "Hongo que afecta las " + "hojas del café " + "reduciendo la " +
      "producción. Manchas " + "anaranjadas en el " + "envés de las hojas."
    case Pulgon =>
      "Insecto chupador que " + "afecta múltiples " + "cultivos y transmite " +
      "virus. Se observan " + "colonias en brotes " + "tiernos."
    case Nematodos =>
      "Gusanos microscópicos " + "que afectan las " + "raíces de las " +
      "plantas. Plantas con " + "crecimiento raquítico " + "y amarillamiento."
    case TaladroDelArroz =>
      "Insecto que perfora " + "el tallo del arroz " + "causando su muerte. " +
      "Tallos con orificios " + "y material fecal."
    case PicudoDelTabaco =>
      "Escarabajo que afecta " + "los botones florales " + "del tabaco. Botones " +
      "florales perforados y " + "dañados."
    case MohoGris =>
      "Hongo que afecta " + "flores y frutos en " + "condiciones de " +
      "humedad. Apariencia " + "de moho grisáceo en " + "tejidos afectados."
  }

  /** The three remedies a table entry lists, in order. */
  datatype Remedies = Remedies(first: string, second: string, third: string)

  function RemedyList(r: Remedies): (list: seq<string>)
    ensures |list| == 3
  {
    [r.first, r.second, r.third]
  }

  function RemediesOf(p: Pest): Remedies
  {
    match p
    case GusanoCogollero => Remedies(
      "Aplicar solución de " + "ceniza de tabaco (1kg " + "por 10L de agua)",
      "Introducir enemigos " + "naturales como " + "trichogramma",
      "Rotar cultivos con " + "leguminosas")
    case MoscaBlanca => Remedies(
      "Usar trampas " + "amarillas adhesivas",
      "Aplicar jabón " + "potásico (20g por " + "litro de agua)",
      "Introducir " + "parasitoides como " + "Encarsia formosa")
    case RoyaDelCafe => Remedies(
      "Podar para mejorar la " + "ventilación",
      "Aplicar caldo " + "bordelés (1%) " + "preventivamente",
      "Usar variedades " + "resistentes")
    case Pulgon => Remedies(
      "Aplicar jabón " + "potásico (200g por " + "10L de agua)",
      "Usar extracto de ajo " + "y cebolla",
      "Fomentar la presencia " + "de mariquitas")
    case Nematodos => Remedies(
      "Solarización del " + "suelo (cubrir con " + "plástico transparente)",
      "Rotación con cultivos " + "no hospederos como " + "maíz",
      "Aplicar compost para " + "mejorar salud del " + "suelo")
    case TaladroDelArroz => Remedies(
      "Eliminar restos de " + "cosecha anteriores",
      "Mantener nivel de " + "agua adecuado en el " + "cultivo",
      "Usar trampas de " + "feromonas")
    case PicudoDelTabaco => Remedies(
      "Recolección manual de " + "adultos",
      "Eliminar botones " + "florales afectados",
      "Rotación con cultivos " + "no hospederos")
    case MohoGris => Remedies(
      "Reducir densidad de " + "plantación para " + "mejorar ventilación",
      "Evitar riego por " + "aspersión en horas de " + "la tarde",
      "Aplicar bicarbonato " + "de sodio (5g por " + "litro)")
  }

  function SolutionsOf(p: Pest): seq<string>
  {
    RemedyList(RemediesOf(p))
  }

  function SeverityOfPest(p: Pest): string
  {
    match p
    case GusanoCogollero => "alta"
    case MoscaBlanca => "media"
    case RoyaDelCafe => "alta"
    case Pulgon => "media"
    case Nematodos => "alta"
    case TaladroDelArroz => "alta"
    case PicudoDelTabaco => "media"
    case MohoGris => "media"
  }

  // ---- The fixed defaults ----

  const NoScientificName: string := "Nombre científico no disponible"
  const NoDescription: string := "Descripción no disponible para esta plaga."
  const GenericSolutions: seq<string> := [
    "Inspeccionar regularmente las plantas en horas de la mañana",
    "Aplicar soluciones biológicas cada 7-10 días",
    "Eliminar plantas muy afectadas para evitar propagación"]
  const DefaultSeverity: string := "media"

  // ---- The lookups, reading own entries only ----

  /** `obtenerNombreCientifico`: the default is returned exactly for the
      names the table does not list, since no entry equals it. */
  function ScientificName(name: string): (r: string)
    ensures r == NoScientificName <==> PestNamed(name).None?
    ensures PestNamed(name).Some? ==> r == ScientificOf(PestNamed(name).value)
  {
    match PestNamed(name)
    case Some(p) => ScientificOf(p)
    case None => NoScientificName
  }

  /** `obtenerDescripcion`: the table's entry for a listed pest, the default
      for every other name. */
  function Description(name: string): (r: string)
    ensures r == NoDescription <==> PestNamed(name).None?
    ensures PestNamed(name).Some? ==> r == DescriptionOf(PestNamed(name).value)
  {
    match PestNamed(name)
    case Some(p) => DescriptionOf(p)
    case None => NoDescription
  }

  /** `obtenerSoluciones`: always three remedies; the table's list
      for a listed pest, the generic list for every other name. */
  function Solutions(name: string): (r: seq<string>)
    ensures |r| == 3
    ensures PestNamed(name).None? ==> r == GenericSolutions
    ensures PestNamed(name).Some? ==> r == SolutionsOf(PestNamed(name).value)
  {
    match PestNamed(name)
    case Some(p) => SolutionsOf(p)
    case None => GenericSolutions
  }

  /** `obtenerSeveridad`: only `'alta'` or `'media'`, and `'media'` for every
      name the table does not list. */
  function Severity(name: string): (r: string)
    ensures r == "alta" || r == "media"
    ensures PestNamed(name).None? ==> r == "media"
    ensures PestNamed(name).Some? ==> r == SeverityOfPest(PestNamed(name).value)
  {
    match PestNamed(name)
    case Some(p) => SeverityOfPest(p)
    case None => DefaultSeverity
  }

  // ---- The lookups as the page script writes them ----

  /** The keys that every object literal inherits from `Object.prototype`
      (ECMA-262, section 20.1.3, plus the legacy accessors of annex B). */
  const ObjectPrototypeKeys: set<string> := {
    "constructor", "hasOwnProperty", "isPrototypeOf", "propertyIsEnumerable",
    "toLocaleString", "toString", "valueOf", "__proto__",
    "__defineGetter__", "__defineSetter__", "__lookupGetter__", "__lookupSetter__"}

  /** What `table[key] || fallback` yields on an object literal: an own
      entry or the fallback, or a member inherited from `Object.prototype`
      (a function or an object, so truthy, and `||` keeps it). */
  datatype PropertyRead<T> = Own(value: T) | Inherited(key: string)

  /** The entry a table lists for `name`, if `name` is one of its keys. */
  function Entry<T>(name: string, table: Pest -> T): Option<T>
  {
    match PestNamed(name)
    case Some(p) => Some(table(p))
    case None => None
  }

  /** `table[name] || fallback` as written: the fallback replaces only
      `undefined`, so an inherited key gets the inherited member. */
  function ReadAsWritten<T>(name: string, entry: Option<T>, fallback: T): PropertyRead<T>
  {
    match entry
    case Some(v) => Own(v)
    case None => if name in ObjectPrototypeKeys then Inherited(name) else Own(fallback)
  }

  /** `obtenerNombreCientifico` as written. */
  function ScientificNameAsWritten(name: string): (r: PropertyRead<string>)
    ensures r.Own? ==> r.value == ScientificName(name)
    ensures r.Inherited? <==> name in ObjectPrototypeKeys && Entry(name, ScientificOf).None?
  {
    ReadAsWritten(name, Entry(name, ScientificOf), NoScientificName)
  }

  /** `obtenerDescripcion` as written. */
  function DescriptionAsWritten(name: string): (r: PropertyRead<string>)
    ensures r.Own? ==> r.value == Description(name)
    ensures r.Inherited? <==> name in ObjectPrototypeKeys && Entry(name, DescriptionOf).None?
  {
    ReadAsWritten(name, Entry(name, DescriptionOf), NoDescription)
  }

  /** `obtenerSoluciones` as written. */
  function SolutionsAsWritten(name: string): (r: PropertyRead<seq<string>>)
    ensures r.Own? ==> r.value == Solutions(name)
    ensures r.Inherited? <==> name in ObjectPrototypeKeys && Entry(name, SolutionsOf).None?
  {
    ReadAsWritten(name, Entry(name, SolutionsOf), GenericSolutions)
  }

  /** `obtenerSeveridad` as written. */
  function SeverityAsWritten(name: string): (r: PropertyRead<string>)
    ensures r.Own? ==> r.value == Severity(name)
    ensures r.Inherited? <==> name in ObjectPrototypeKeys && Entry(name, SeverityOfPest).None?
  {
    ReadAsWritten(name, Entry(name, SeverityOfPest), DefaultSeverity)
  }

  /** No pest is listed under a key that objects inherit. */
  lemma NoPestIsPrototypeKey(name: string)
    requires name in ObjectPrototypeKeys
    ensures PestNamed(name).None?
  {
  }

  /** A label that is an inherited key, such as `"toString"`, gets the
      inherited member back from all four lookups as written: not a string,
      not three remedies, not `'alta'` or `'media'`. Drawing its card then
      throws at `result.solutions.map`. The own-entry lookups give the
      defaults instead. */
  lemma InheritedKeysBreakLookups(name: string)
    requires name in ObjectPrototypeKeys
    ensures ScientificNameAsWritten(name) == Inherited(name)
    ensures DescriptionAsWritten(name) == Inherited(name)
    ensures SolutionsAsWritten(name) == Inherited(name)
    ensures SeverityAsWritten(name) == Inherited(name)
    ensures ScientificName(name) == NoScientificName && Description(name) == NoDescription
    ensures Solutions(name) == GenericSolutions && Severity(name) == DefaultSeverity
  {
    NoPestIsPrototypeKey(name);
  }

  /** Away from the inherited keys the written lookups and the own-entry
      lookups agree. */
  lemma LookupsAsWrittenAgree(name: string)
    requires name !in ObjectPrototypeKeys
    ensures ScientificNameAsWritten(name) == Own(ScientificName(name))
    ensures DescriptionAsWritten(name) == Own(Description(name))
    ensures SolutionsAsWritten(name) == Own(Solutions(name))
    ensures SeverityAsWritten(name) == Own(Severity(name))
  {
  }
}
