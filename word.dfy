/**
 * The prompt bank of the typing game: six fixed tables of Spanish words and
 * phrases, one per difficulty tier and mode, and the two lookups that pick
 * the tier from the player's level and return one entry of it.
 *
 * The random draw of the game's lookups (an index in [0, length) of the chosen
 * table) is either an explicit argument of the lookup functions or a
 * nondeterministic choice inside the lookup methods.
 */
module Word {

  /** The three difficulty tiers, from easiest to hardest. */
  datatype Tier = Facil | Media | Dificil

  /** Position of a tier in the difficulty order. */
  function Rank(t: Tier): (k: nat)
    ensures k <= 2
    ensures t == Facil <==> k == 0
    ensures t == Dificil <==> k == 2
  {
    match t
    case Facil => 0
    case Media => 1
    case Dificil => 2
  }

  /** Tier of a level, shared by both lookups: up to 5 easy, up to 10 medium, hard beyond. */
  function TierPorNivel(nivel: int): (t: Tier)
    ensures t == Facil <==> nivel <= 5
    ensures t == Media <==> 6 <= nivel <= 10
    ensures t == Dificil <==> 10 < nivel
  {
    if nivel <= 5 then Facil
    else if nivel <= 10 then Media
    else Dificil
  }

  const PalabrasFaciles: seq<string> :=
    ["Casa", "Sol", "Luz", "Perro", "Gato", "Pan", "Río", "Té", "Mar", "Flor"]

  const PalabrasMedias: seq<string> :=
    ["Computadora", "Biblioteca", "Helicóptero", "Estudiante", "Programación",
     "Automóvil", "Espejismo", "Montaña", "Jardinería", "Televisión"]

  const PalabrasDificiles: seq<string> :=
    ["Electrodoméstico", "Neurociencia", "Paralelepípedo", "Otorrinolaringólogo",
     "Desoxirribonucleico", "Cinematografía", "Inconstitucionalidad",
     "Esternocleidomastoideo", "Anticonstitucionalmente", "Criptografía"]

  const FrasesFaciles: seq<string> :=
    ["El sol brilla", "Hoy es un buen día", "Amo la programación", "Java es genial",
     "La luna es hermosa", "Voy a la escuela", "Me gusta leer", "El cielo es azul",
     "Las flores son bellas", "El perro ladra", "Tengo hambre"]

  const FrasesMedias: seq<string> :=
    ["Hoy aprendí algo nuevo en clase", "El agua hierve a cien grados Celsius",
     "Programar es divertido y desafiante", "La naturaleza es increíblemente hermosa",
     "Un astronauta viaja al espacio exterior", "El viento sopla con fuerza en otoño",
     "La tecnología avanza a pasos agigantados", "El océano es profundo y misterioso",
     "Estudiar es la clave del éxito en la vida"]

  const FrasesDificiles: seq<string> :=
    ["La perseverancia y la disciplina son esenciales para alcanzar el éxito",
     "El aprendizaje continuo es fundamental en el mundo de la programación",
     "Las ecuaciones matemáticas son fundamentales para la ingeniería",
     "El desarrollo de software requiere lógica, paciencia y creatividad",
     "Los avances en inteligencia artificial están revolucionando el mundo",
     "El cambio climático es un desafío que debemos enfrentar urgentemente",
     "Las estrellas en el cielo nocturno nos recuerdan lo pequeño que somos"]

  /** Every entry of a table is a non-empty string. */
  predicate EntradasNoVacias(tabla: seq<string>)
  {
    forall k :: 0 <= k < |tabla| ==> tabla[k] != ""
  }

  /** The word table of a tier. */
  function Palabras(t: Tier): (tabla: seq<string>)
    ensures |tabla| == 10
    ensures EntradasNoVacias(tabla)
  {
    match t
    case Facil => PalabrasFaciles
    case Media => PalabrasMedias
    case Dificil => PalabrasDificiles
  }

  /** The phrase table of a tier. */
  function Frases(t: Tier): (tabla: seq<string>)
    ensures |tabla| == (match t case Facil => 11 case Media => 9 case Dificil => 7)
    ensures EntradasNoVacias(tabla)
  {
    match t
    case Facil => FrasesFaciles
    case Media => FrasesMedias
    case Dificil => FrasesDificiles
  }

  /** The table a session draws from: the phrase table in phrase mode, the word table otherwise. */
  function Banco(modoFrases: bool, t: Tier): (tabla: seq<string>)
    ensures |tabla| > 0 && EntradasNoVacias(tabla)
    ensures modoFrases ==> tabla == Frases(t)
    ensures !modoFrases ==> tabla == Palabras(t)
  {
    if modoFrases then Frases(t) else Palabras(t)
  }

  /** The word lookup with the random index `i` given explicitly. */
  function PalabraPorNivel(nivel: int, i: nat): (r: string)
    requires i < |Palabras(TierPorNivel(nivel))|
    ensures r != ""
    ensures nivel <= 5 ==> r in PalabrasFaciles
    ensures 6 <= nivel <= 10 ==> r in PalabrasMedias
    ensures 10 < nivel ==> r in PalabrasDificiles
  {
    if nivel <= 5 then PalabrasFaciles[i]
    else if nivel <= 10 then PalabrasMedias[i]
    else PalabrasDificiles[i]
  }

  /** The phrase lookup with the random index `i` given explicitly. */
  function FrasePorNivel(nivel: int, i: nat): (r: string)
    requires i < |Frases(TierPorNivel(nivel))|
    ensures r != ""
    ensures nivel <= 5 ==> r in FrasesFaciles
    ensures 6 <= nivel <= 10 ==> r in FrasesMedias
    ensures 10 < nivel ==> r in FrasesDificiles
  {
    if nivel <= 5 then FrasesFaciles[i]
    else if nivel <= 10 then FrasesMedias[i]
    else FrasesDificiles[i]
  }

  /** The word lookup: draws an index of the level's word table and returns that entry. */
  method ObtenerPalabraPorNivel(nivel: int) returns (r: string)
    ensures r != ""
    ensures r in Palabras(TierPorNivel(nivel))
    ensures exists i :: 0 <= i < |Palabras(TierPorNivel(nivel))| && r == PalabraPorNivel(nivel, i)
  {
    var i: nat :| i < |Palabras(TierPorNivel(nivel))|;
    r := PalabraPorNivel(nivel, i);
  }

  /** The phrase lookup: draws an index of the level's phrase table and returns that entry. */
  method ObtenerFrasePorNivel(nivel: int) returns (r: string)
    ensures r != ""
    ensures r in Frases(TierPorNivel(nivel))
    ensures exists i :: 0 <= i < |Frases(TierPorNivel(nivel))| && r == FrasePorNivel(nivel, i)
  {
    var i: nat :| i < |Frases(TierPorNivel(nivel))|;
    r := FrasePorNivel(nivel, i);
  }

  /**
   * Length bands that separate the tiers of each table: they are how the
   * disjointness of the tiers is proved, not part of the game.
   */
  ghost predicate EnBanda(modoFrases: bool, t: Tier, s: string)
  {
    if modoFrases then
      match t
      case Facil => |s| <= 21
      case Media => 31 <= |s| <= 41
      case Dificil => 63 <= |s|
    else
      match t
      case Facil => |s| <= 5
      case Media => 7 <= |s| <= 12 && (|s| == 12 ==> s[0] == 'P')
      case Dificil => 12 <= |s| && (|s| == 12 ==> s[0] != 'P')
  }

  lemma BancoEnBanda(modoFrases: bool, t: Tier)
    ensures forall k :: 0 <= k < |Banco(modoFrases, t)| ==> EnBanda(modoFrases, t, Banco(modoFrases, t)[k])
  {
  }

  /** No string appears in the tables of two different tiers of the same mode. */
  lemma TablasDisjuntas(modoFrases: bool, t: Tier, u: Tier, s: string)
    requires t != u
    ensures !(s in Banco(modoFrases, t) && s in Banco(modoFrases, u))
  {
    BancoEnBanda(modoFrases, t);
    BancoEnBanda(modoFrases, u);
  }

  /** Every word the lookup returns belongs to tier `t` exactly when the level selects `t`. */
  lemma PalabraDeterminaTier(nivel: int, i: nat, t: Tier)
    requires i < |Palabras(TierPorNivel(nivel))|
    ensures PalabraPorNivel(nivel, i) in Palabras(t) <==> TierPorNivel(nivel) == t
  {
    if TierPorNivel(nivel) != t {
      TablasDisjuntas(false, TierPorNivel(nivel), t, PalabraPorNivel(nivel, i));
    }
  }

  /** Every phrase the lookup returns belongs to tier `t` exactly when the level selects `t`. */
  lemma FraseDeterminaTier(nivel: int, i: nat, t: Tier)
    requires i < |Frases(TierPorNivel(nivel))|
    ensures FrasePorNivel(nivel, i) in Frases(t) <==> TierPorNivel(nivel) == t
  {
    if TierPorNivel(nivel) != t {
      TablasDisjuntas(true, TierPorNivel(nivel), t, FrasePorNivel(nivel, i));
    }
  }

  /** The word lookup and the phrase lookup use the same level boundaries. */
  lemma MismosLimites(nivel: int, i: nat, j: nat, t: Tier)
    requires i < |Palabras(TierPorNivel(nivel))|
    requires j < |Frases(TierPorNivel(nivel))|
    ensures PalabraPorNivel(nivel, i) in Palabras(t) <==> FrasePorNivel(nivel, j) in Frases(t)
  {
    PalabraDeterminaTier(nivel, i, t);
    FraseDeterminaTier(nivel, j, t);
  }

  /** A higher level never selects an easier tier. */
  lemma TierMonotono(nivel: int, otro: int)
    requires nivel <= otro
    ensures Rank(TierPorNivel(nivel)) <= Rank(TierPorNivel(otro))
  {
  }
}
