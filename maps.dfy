/** Facts about updating a map twice, used when a handle's state is written
    more than once during one operation. */
module Maps {

  /** Overwriting a key of a map after another key's update is the same as
      writing it first. */
  lemma UpdateAgain<K, V>(m: map<K, V>, a: K, b: K, x: V, y: V, z: V)
    requires a != b
    ensures m[a := x][b := y][a := z] == m[a := z][b := y]
  {
  }

  /** Overwriting two updated keys of a map with the same value, in either
      order, is the same as writing that value to both. */
  lemma ReleaseBoth<K, V>(m: map<K, V>, a: K, b: K, x: V, y: V, z: V)
    requires a != b
    ensures m[a := x][b := y][b := z][a := z] == m[a := z][b := z]
  {
  }
}
