# Escritura rápida: the game-state model in Dafny

This project models the game-state core of a desktop typing game. The game
shows a word or phrase, and the player must type it before a countdown ends.
A correct answer raises the level and the score. A wrong answer costs one of
four chances, and the game ends when no chance is left.

- `word.dfy`, module `Word`: the prompt bank. It holds six fixed tables: words
  and phrases, each in an easy, a medium and a hard tier. Two lookups pick the
  tier from the level (up to 5, up to 10, beyond) and return one entry of it.
  The lookup functions take the random index as an explicit argument. The
  lookup methods pick an in-range index nondeterministically.
- `game.dfy`, module `Game`: class `Game`, the session object. Its fields are
  `nivel`, `puntos`, `oportunidades`, `tiempoRestante`, `palabraOFraseActual`
  and `modoFrases`. The constructor and the three transitions update them in
  place. `JuegoTerminado` and the getters only read them.
  The predicate `Valid()` is the session invariant. Every method keeps it:
  - the score is always `10 * (nivel - 1)`;
  - the level is at least 1;
  - there are at most four chances;
  - the clock is between 0 and the time granted for the current level (at most 20);
  - the prompt belongs to the current level's tier of the session's bank.
  The function `TiempoPorNivel` is the five-band time table.
- `session.dfy`, module `Session`: call sequences as the user interface issues
  them. It covers four wrong answers, correct answers and clock ticks past zero.
  They are proved from the class contracts alone. `TiempoTrasTicks` gives the
  clock after a number of timer ticks, each acting as `ReducirTiempo`.

`PerderOportunidad` subtracts one with no floor, as `perderOportunidad` does
(Game.java:63-65), and `JuegoTerminado` treats any value at or below zero as
game over.

## Model

| member | source | states |
|---|---|---|
| `Word.TierPorNivel` | src/main/java/com/example/escriturarapidaproject/model/Word.java:64-89 | The easy tier is chosen exactly for levels up to 5, including zero and negative levels. The medium tier is chosen exactly for levels 6 to 10, and the hard tier exactly above 10. Both lookups use this one rule |
| `Word.Palabras` | src/main/java/com/example/escriturarapidaproject/model/Word.java:13-26 | Each word table has 10 entries, and every entry is a non-empty string |
| `Word.Frases` | src/main/java/com/example/escriturarapidaproject/model/Word.java:28-50 | The phrase tables have 11, 9 and 7 entries, and every entry is a non-empty string |
| `Word.Banco` | src/main/java/com/example/escriturarapidaproject/model/Game.java:28 | The bank a session draws from is the phrase table in phrase mode and the word table otherwise. It is non-empty and has no empty entry |
| `Word.PalabraPorNivel` | src/main/java/com/example/escriturarapidaproject/model/Word.java:81-89 | For any index inside the level's table, the word returned is non-empty. It belongs to the easy, the medium or the hard word table as the level is at most 5, in 6 to 10, or above 10 |
| `Word.FrasePorNivel` | src/main/java/com/example/escriturarapidaproject/model/Word.java:64-72 | The same as `PalabraPorNivel`, for the three phrase tables |
| `Word.ObtenerPalabraPorNivel` | src/main/java/com/example/escriturarapidaproject/model/Word.java:81-89 | The random index is always within the chosen table, so the lookup never fails. The result is a non-empty entry of the level's word tier |
| `Word.ObtenerFrasePorNivel` | src/main/java/com/example/escriturarapidaproject/model/Word.java:64-72 | The random index is always within the chosen table. The result is a non-empty entry of the level's phrase tier |
| `Word.TablasDisjuntas` | src/main/java/com/example/escriturarapidaproject/model/Word.java:13-50 | In each mode, no string appears in the tables of two different tiers |
| `Word.PalabraDeterminaTier` | src/main/java/com/example/escriturarapidaproject/model/Word.java:81-89 | A word returned for a level is in tier t's table if and only if that level selects tier t |
| `Word.FraseDeterminaTier` | src/main/java/com/example/escriturarapidaproject/model/Word.java:64-72 | A phrase returned for a level is in tier t's table if and only if that level selects tier t |
| `Word.MismosLimites` | src/main/java/com/example/escriturarapidaproject/model/Word.java:64-89 | For any level, the word lookup returns a tier-t word exactly when the phrase lookup returns a tier-t phrase. The two lookups share their boundaries |
| `Word.TierMonotono` | src/main/java/com/example/escriturarapidaproject/model/Word.java:64-89 | A higher level never selects an easier tier |
| `Game.TiempoPorNivel` | src/main/java/com/example/escriturarapidaproject/model/Game.java:40-51 | The time granted for a level is always an even number of seconds between 12 and 20 |
| `Game.TiempoFormaCerrada` | src/main/java/com/example/escriturarapidaproject/model/Game.java:40-51 | For level n >= 1, the time table equals 20 - 2 * min((n - 1) / 5, 4). That is two seconds fewer per completed band of five levels, at most four bands |
| `Game.TiempoNoCrece` | src/main/java/com/example/escriturarapidaproject/model/Game.java:40-51 | A higher level never grants more time |
| `Game.Tick` | src/main/java/com/example/escriturarapidaproject/model/Game.java:71-75 | One tick never raises the clock and lowers it by at most one second. A clock at or above 0 stays at or above 0. The clock stays the same exactly when it is already at or below 0 |
| `Game.Game.constructor` | src/main/java/com/example/escriturarapidaproject/model/Game.java:22-29 | A new session is at level 1 with 0 points, 4 chances and 20 seconds. The mode is the one requested. The prompt is a non-empty entry of that mode's easy tier, and the invariant holds |
| `Game.Game.AvanzarNivel` | src/main/java/com/example/escriturarapidaproject/model/Game.java:35-57 | Points go up by exactly 10 and the level by exactly 1. Chances and mode are unchanged. The clock is reset to the time table at the new level. The new prompt is from the new level's tier in the session's mode. The invariant is kept |
| `Game.Game.PerderOportunidad` | src/main/java/com/example/escriturarapidaproject/model/Game.java:63-65 | Chances go down by exactly 1 with no floor. Every other field is unchanged, and the invariant is kept |
| `Game.Game.ReducirTiempo` | src/main/java/com/example/escriturarapidaproject/model/Game.java:71-75 | The clock goes down by one second when it is positive and stays at 0 otherwise, so it never goes negative. Every other field is unchanged, and the invariant is kept |
| `Game.Game.JuegoTerminado` | src/main/java/com/example/escriturarapidaproject/model/Game.java:82-84 | The game is over if and only if fewer than one chance is left. Under the invariant, a game that is not over has between 1 and 4 chances |
| `Game.Game.GetPuntos` | src/main/java/com/example/escriturarapidaproject/model/Game.java:91-93 | Returns the score. Under the invariant it is 10 per completed level and never negative |
| `Game.Game.GetOportunidades` | src/main/java/com/example/escriturarapidaproject/model/Game.java:100-102 | Returns the chances, which under the invariant are at most 4 |
| `Game.Game.GetPalabraOFraseActual` | src/main/java/com/example/escriturarapidaproject/model/Game.java:109-111 | Returns the prompt. Under the invariant it is non-empty and from the current level's tier of the session's bank |
| `Game.Game.GetNivel` | src/main/java/com/example/escriturarapidaproject/model/Game.java:118-120 | Returns the level. Under the invariant it is at least 1 and is one more than the score divided by ten |
| `Game.Game.GetTiempoRestante` | src/main/java/com/example/escriturarapidaproject/model/Game.java:127-129 | Returns the clock. Under the invariant it is between 0 and the time granted for the level, at most 20 |
| `Session.CuatroErrores` | src/main/java/com/example/escriturarapidaproject/model/Game.java:63-84 | After three wrong answers in a new session the game is not over. After the fourth it is over, with exactly 0 chances |
| `Session.PrimerAcierto` | src/main/java/com/example/escriturarapidaproject/model/Game.java:35-57 | One correct answer in phrase mode gives level 2, 10 points, 20 seconds and an easy phrase |
| `Session.CincoAciertos` | src/main/java/com/example/escriturarapidaproject/model/Game.java:35-57 | Five correct answers give level 6, 50 points, 18 seconds, still 4 chances and a medium-tier prompt |
| `Session.TickAlFinal` | src/main/java/com/example/escriturarapidaproject/controller/GameController.java:80-83 | Running n + 1 timer ticks is the same as running n ticks and then one more, so a sequence of ticks can be followed one step at a time |
| `Session.TicksFormaCerrada` | src/main/java/com/example/escriturarapidaproject/controller/GameController.java:80-86 | From a clock at t >= 0, n ticks leave t - n seconds while n <= t, and 0 from then on. The clock never goes negative. The timer's cycle count, taken from the clock, is exactly enough to reach 0 |
| `Session.TiempoAgotado` | src/main/java/com/example/escriturarapidaproject/model/Game.java:71-75 | After at least 20 ticks from a new session the clock reads 0, and one more tick leaves it at 0 |

## Left out

- The user-interface controllers and the application launcher: `GameController.java`, `MenuController.java` and `Main.java`. They hold window and scene handling, labels, images and dialogs, which are toolkit calls with no game logic of their own.
- Answer checking in `GameController.validarEntrada`: the player's trimmed input against the prompt, with Java's Unicode case-insensitive comparison. The prompts contain accented letters, and case folding is not modelled. The `Session` methods stand for the two outcomes, which call `AvanzarNivel` or `PerderOportunidad`.
- The timer: a one-second repeating timeline, restarted on every correct answer. Its cycle count is taken from the clock's value at start, and reaching 0 ends the game from the controller. This is event-loop and toolkit behaviour. `TiempoTrasTicks`, its lemmas and `Session.TiempoAgotado` cover only the effect of repeated ticks on the clock.
- The random generator: no uniformity or distribution is modelled. The draw is an explicit index, or a nondeterministic choice of an index within the table.
- Java's 32-bit `int`: the fields are unbounded integers. In the source, the score would wrap only after about 214 million correct answers and `nivel` only after about 2.1 billion, and no game gets that far. The chances cannot wrap, because the game ends once they reach 0.
