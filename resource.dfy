/**
 * The Resource value object: a handle to a GPU memory object together with
 * its queried format capabilities, an optional optimized clear value and a
 * debug name. The fields are overwritten in place by the assignment
 * operators, Reset, SetName and SetD3D12Resource.
 */
module ResourceModel {
  import opened D3D

  /** D3D12_FEATURE_DATA_FORMAT_SUPPORT: the format and its two capability masks. */
  datatype FormatSupport = FormatSupport(format: Format, support1: bv32, support2: bv32)

  /** The value-initialised (`{}`) format support record. */
  const NO_FORMAT_SUPPORT := FormatSupport(0, 0, 0)

  /** D3D12_CLEAR_VALUE: a format and an opaque colour or depth/stencil payload. */
  datatype ClearValue = ClearValue(format: Format, payload: nat)

  /** Calls the resource makes on objects it does not own. */
  datatype ResourceEvent =
    | NameForwarded(res: Ptr, name: string)       // ID3D12Object::SetName on the underlying object
    | GlobalStateAdded(res: Ptr, state: ResourceState)   // ResourceStateTracker::AddGlobalResourceState

  /** A capability test: does the mask share a bit with the queried flags? */
  function Supports(mask: bv32, flags: bv32): (r: bool)
    ensures r ==> mask != 0 && flags != 0
    ensures flags & mask == flags && flags != 0 ==> r
  {
    mask & flags != 0
  }

  class Resource {
    var device: Ptr
    var handle: Ptr
    var formatSupport: FormatSupport
    var clearValue: Option<ClearValue>
    var name: string
    ghost var log: seq<ResourceEvent>

    /** The events SetName produces for a given underlying object and name. */
    static function NameEvents(res: Ptr, name: string): seq<ResourceEvent>
    {
      if res != Null && |name| > 0 then [NameForwarded(res, name)] else []
    }

    /** Resource(name): no device, no resource, no capabilities, no clear value. */
    constructor Named(name: string)
      ensures device == Null && handle == Null && formatSupport == NO_FORMAT_SUPPORT
      ensures clearValue == None && this.name == name && log == []
    {
      device := Null;
      handle := Null;
      formatSupport := NO_FORMAT_SUPPORT;
      clearValue := None;
      this.name := name;
      log := [];
    }

    /** Resource(device, name): bound to a device, but without an underlying resource. */
    constructor ForDevice(device: Ptr, name: string)
      ensures this.device == device && handle == Null && formatSupport == NO_FORMAT_SUPPORT
      ensures clearValue == None && this.name == name && log == []
    {
      this.device := device;
      handle := Null;
      formatSupport := NO_FORMAT_SUPPORT;
      clearValue := None;
      this.name := name;
      log := [];
    }

    /**
     * Resource(device, desc, clearValue, name): creates a committed resource
     * (`created` is the object the device returns), registers it in the
     * global state map as COMMON, queries its capabilities (`queried` is the
     * device's answer) and names it.
     */
    constructor Create(device: Ptr, clear: Option<ClearValue>, name: string, created: Ptr, queried: FormatSupport)
      requires device != Null && created != Null
      ensures this.device == device && handle == created && clearValue == clear
      ensures formatSupport == queried && this.name == name
      ensures log == [GlobalStateAdded(created, STATE_COMMON)] + NameEvents(created, name)
    {
      this.device := device;
      clearValue := clear;
      handle := created;
      this.name := "";
      formatSupport := NO_FORMAT_SUPPORT;
      log := [GlobalStateAdded(created, STATE_COMMON)];
      new;
      CheckFeatureSupport(queried);
      SetName(name);
    }

    /** Resource(device, resource, name): wraps an existing resource. */
    constructor Wrap(device: Ptr, resource: Ptr, name: string, queried: FormatSupport)
      requires resource != Null ==> device != Null
      ensures this.device == device && handle == resource && clearValue == None && this.name == name
      ensures formatSupport == (if resource == Null then NO_FORMAT_SUPPORT else queried)
      ensures log == NameEvents(resource, name)
    {
      this.device := device;
      handle := resource;
      clearValue := None;
      this.name := "";
      formatSupport := NO_FORMAT_SUPPORT;
      log := [];
      new;
      CheckFeatureSupport(queried);
      SetName(name);
    }

    /** The copy constructor dereferences the source's clear value unconditionally. */
    constructor Copy(other: Resource)
      requires other.clearValue.Some?
      ensures device == other.device && handle == other.handle && formatSupport == other.formatSupport
      ensures name == other.name && clearValue == other.clearValue && log == []
    {
      device := other.device;
      handle := other.handle;
      formatSupport := other.formatSupport;
      name := other.name;
      clearValue := Some(other.clearValue.value);
      log := [];
    }

    /**
     * The move constructor takes every field; the source keeps only its format
     * support record (which is copied) and is left with an empty name.
     */
    constructor Move(other: Resource)
      modifies other
      ensures device == old(other.device) && handle == old(other.handle)
      ensures formatSupport == old(other.formatSupport) && name == old(other.name)
      ensures clearValue == old(other.clearValue) && log == []
      ensures other.device == Null && other.handle == Null && other.clearValue == None && other.name == ""
      ensures other.formatSupport == old(other.formatSupport) && other.log == old(other.log)
    {
      device := other.device;
      handle := other.handle;
      formatSupport := other.formatSupport;
      name := other.name;
      clearValue := other.clearValue;
      log := [];
      new;
      other.device := Null;
      other.handle := Null;
      other.name := "";
      other.clearValue := None;
    }

    /**
     * Copy assignment. From a distinct object it copies device, resource,
     * format support and name; the clear value only when the source has one.
     * Self-assignment changes nothing.
     */
    method CopyAssign(other: Resource)
      modifies this
      ensures other == this ==> device == old(device) && handle == old(handle) && formatSupport == old(formatSupport)
      ensures other == this ==> name == old(name) && clearValue == old(clearValue)
      ensures other != this ==> device == other.device && handle == other.handle
      ensures other != this ==> formatSupport == other.formatSupport && name == other.name
      ensures other != this ==> clearValue == (if other.clearValue.Some? then other.clearValue else old(clearValue))
      ensures log == old(log)
      ensures other != this ==> other.device == old(other.device) && other.handle == old(other.handle) && other.clearValue == old(other.clearValue)
    {
      if other != this {
        device := other.device;
        handle := other.handle;
        formatSupport := other.formatSupport;
        name := other.name;
        if other.clearValue.Some? {
          clearValue := Some(other.clearValue.value);
        }
      }
    }

    /**
     * Move assignment. From a distinct object it transfers every field and
     * leaves the source in the Reset state (its device pointer moved away as
     * well). Self-assignment changes nothing.
     */
    method MoveAssign(other: Resource)
      modifies this, other
      ensures other == this ==> device == old(device) && handle == old(handle) && formatSupport == old(formatSupport)
      ensures other == this ==> name == old(name) && clearValue == old(clearValue)
      ensures other != this ==> device == old(other.device) && handle == old(other.handle)
      ensures other != this ==> formatSupport == old(other.formatSupport) && name == old(other.name)
      ensures other != this ==> clearValue == old(other.clearValue)
      ensures other != this ==> other.IsReset() && other.device == Null
      ensures log == old(log) && other.log == old(other.log)
    {
      if other != this {
        device := other.device;
        handle := other.handle;
        formatSupport := other.formatSupport;
        name := other.name;
        clearValue := other.clearValue;
        other.device := Null;
        other.Reset();
      }
    }

    /** The state Reset leaves behind. */
    ghost predicate IsReset()
      reads this
    {
      handle == Null && formatSupport == NO_FORMAT_SUPPORT && clearValue == None && name == ""
    }

    /**
     * Rebinds the object to another device and resource. A clear value is kept
     * (copied from the argument, which must then be present) iff one was
     * present before; capabilities are re-queried and the name re-applied.
     */
    method SetD3D12Resource(device: Ptr, resource: Ptr, clear: Option<ClearValue>, queried: FormatSupport)
      requires clearValue.Some? ==> clear.Some?
      requires resource != Null ==> device != Null
      modifies this
      ensures this.device == device && handle == resource && name == old(name)
      ensures clearValue.Some? <==> old(clearValue).Some?
      ensures clearValue.Some? ==> clearValue == clear
      ensures formatSupport == (if resource == Null then NO_FORMAT_SUPPORT else queried)
      ensures log == old(log) + NameEvents(resource, old(name))
    {
      this.device := device;
      handle := resource;
      if clearValue.Some? {
        clearValue := Some(clear.value);
      } else {
        clearValue := None;
      }
      CheckFeatureSupport(queried);
      SetName(name);
    }

    /** Stores the name; forwards it only when a resource exists and the name is non-empty. */
    method SetName(newName: string)
      modifies this`name, this`log
      ensures name == newName
      ensures log == old(log) + NameEvents(handle, newName)
      ensures handle == Null || |newName| == 0 ==> log == old(log)
    {
      name := newName;
      if handle != Null && |name| > 0 {
        log := log + [NameForwarded(handle, name)];
      }
    }

    /** Releases the resource and clears capabilities, clear value and name. */
    method Reset()
      modifies this`handle, this`formatSupport, this`clearValue, this`name
      ensures IsReset()
      ensures forall f :: !CheckFormatSupport1(f) && !CheckFormatSupport2(f)
    {
      handle := Null;
      formatSupport := NO_FORMAT_SUPPORT;
      clearValue := None;
      name := "";
    }

    /** CheckFormatSupport for a D3D12_FORMAT_SUPPORT1 flag. */
    function CheckFormatSupport1(flags: bv32): (r: bool)
      reads this
      ensures r <==> Supports(formatSupport.support1, flags)
    {
      formatSupport.support1 & flags != 0
    }

    /** CheckFormatSupport for a D3D12_FORMAT_SUPPORT2 flag. */
    function CheckFormatSupport2(flags: bv32): (r: bool)
      reads this
      ensures r <==> Supports(formatSupport.support2, flags)
    {
      formatSupport.support2 & flags != 0
    }

    /**
     * Queries the device for the capabilities of the resource's format
     * (`queried` is the device's answer); without a resource every capability
     * is cleared.
     */
    method CheckFeatureSupport(queried: FormatSupport)
      modifies this`formatSupport
      ensures formatSupport == (if handle == Null then NO_FORMAT_SUPPORT else queried)
      ensures handle == Null ==> forall f :: !CheckFormatSupport1(f) && !CheckFormatSupport2(f)
    {
      if handle != Null {
        formatSupport := queried;
      } else {
        formatSupport := NO_FORMAT_SUPPORT;
      }
    }
  }
}
