/** The schema transform of value metadata: clients below schema version 2
    do not know the "buffer" value type and are told "string" instead. */
module MetadataHandler {
  import opened Messages

  /** The first schema version whose clients understand the "buffer" type. */
  const BufferTypeVersion := 2

  /** A value's metadata object, as the driver hands it out. */
  class ValueMetadata {
    /** The metadata's `type` property ("number", "string", "buffer", ...). */
    var valueType: string
    /** Every other property (readable, writeable, label, ...). */
    var otherProperties: map<string, Json>

    constructor (valueType: string, otherProperties: map<string, Json>)
      ensures this.valueType == valueType && this.otherProperties == otherProperties
    {
      this.valueType := valueType;
      this.otherProperties := otherProperties;
    }
  }

  /** The value type a client speaking `schemaVersion` is shown for `valueType`. */
  function TransformedType(valueType: string, schemaVersion: int): (r: string)
    ensures schemaVersion < BufferTypeVersion ==> r != "buffer"
    ensures schemaVersion < BufferTypeVersion && valueType == "buffer" ==> r == "string"
    ensures schemaVersion >= BufferTypeVersion || valueType != "buffer" ==> r == valueType
  {
    if schemaVersion < BufferTypeVersion && valueType == "buffer" then "string" else valueType
  }

  /** Applying the transform twice shows the same type as applying it once. */
  lemma TransformIsIdempotent(valueType: string, schemaVersion: int)
    ensures TransformedType(TransformedType(valueType, schemaVersion), schemaVersion) == TransformedType(valueType, schemaVersion)
  {
  }

  /** Rewrites `metadata` in place for a client speaking `schemaVersion`;
      only its `type` property may change. */
  method SchemaTransformValueMetadata(metadata: ValueMetadata, schemaVersion: int)
    modifies metadata`valueType
    ensures metadata.valueType == TransformedType(old(metadata.valueType), schemaVersion)
    ensures metadata.otherProperties == old(metadata.otherProperties)
  {
    if schemaVersion < BufferTypeVersion && metadata.valueType == "buffer" {
      metadata.valueType := "string";
    }
  }

  /** Fetches the node's metadata object for `valueArgs` and transforms it in
      place: the object returned is the node's own, so the node's copy is
      rewritten too. `getValueMetadata` is the driver's lookup. */
  method GetTransformedValueMetadata(getValueMetadata: ValueId -> ValueMetadata, valueArgs: ValueId, schemaVersion: int)
    returns (metadata: ValueMetadata)
    requires allocated(getValueMetadata(valueArgs))
    modifies getValueMetadata(valueArgs)`valueType
    ensures metadata == getValueMetadata(valueArgs)
    ensures metadata.valueType == TransformedType(old(getValueMetadata(valueArgs).valueType), schemaVersion)
    ensures metadata.otherProperties == old(getValueMetadata(valueArgs).otherProperties)
  {
    metadata := getValueMetadata(valueArgs);
    SchemaTransformValueMetadata(metadata, schemaVersion);
  }
}
